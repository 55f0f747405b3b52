# AK Collectibles storefront: a Dafny model of the order, cart and purchase-limit rules

AK Collectibles is a Next.js storefront for coins and collectibles. It sells
items three ways:

- direct-buy items with a stock count and an optional per-customer cap;
- auctions, which the highest valid bidder may pay for once the auction has ended;
- showcase "museum pieces", which are not for sale.

This project models the parts of the storefront that hold logic, and proves
what those parts promise:

- **Checkout transaction** (`POST /api/orders`). Every cart line is re-read
  from the products table and checked:
  - the product exists;
  - the product is not sold out (status `sold` and no stock left);
  - there is enough stock;
  - the client's price is within 0.1 rupee of the stored price;
  - for an auction, the auction has ended and the caller holds the top valid
    bid.

  The whole order fails on the first failing line. Otherwise the order is
  inserted with the total Σ(price·qty + shipping), and its items are inserted
  with the stored prices. Stock is then decremented, and each product is
  marked sold once its stock reaches zero.
- **Cart store**: add, remove, update-quantity, clear and the two totals, over
  a list kept free of duplicate product ids.
- **Product panel.** The purchase limit `min(stock, max_per_user)`, the
  remaining quantity and the out-of-stock flag. The quantity field and its
  −/+ stepper. The add-to-cart, pay-now and bid guards. The auction
  ended/winner/leader predicates and which of the four panels is shown.
- **Checkout page**: the shipping and grand totals, the formatted address, the
  session and empty-cart gating, and what a success or failure response does
  to the cart, the error and the modal.
- **Admin order list**: the in-place status update of one order, the
  ship/cancel actions offered for non-terminal orders, and the confirm/input
  modal.
- **Smaller pieces**:
  - the auction countdown;
  - the shop page's parameterised SQL and pagination;
  - the toolbar's URL query-parameter edits;
  - the new-product form;
  - the product-creation route;
  - the settings route;
  - registration and password change;
  - the stale-status repair script.

Modelling conventions:

- Money is integer paise, so the 0.1 rupee tolerance is 10.
- Time is integer milliseconds.
- The signed-in session is an `Option<Principal>` (user id and role).
- The database is one object, `Tables.Database`. Each table is a field: a map
  keyed by id, or a sequence of rows. Each route is a method whose `modifies`
  clause names the tables it writes.
- Client components with state (the product panel, the checkout page, the
  admin list, the toolbar, the product form) are classes. Their handlers are
  methods.
- Pure calculations are functions. Each has lemmas relating it to the
  property it is meant to have.
- Password hashing and comparison are function parameters.
- What an upload or a database statement returns (success, a url, a
  failure) is a parameter of the method that uses it.

The products table of `src/lib/db.js` has no `stock` or `max_per_user`
columns; later migrations add them, and the routes read both. The model's
`Product` includes them.

## Model

| member | source | states |
|---|---|---|
| Tables.Database.constructor | src/lib/db.js:13-83 | A fresh database has every table empty and satisfies the id invariant (rows keyed by their own id, ids below the next id to hand out). |
| Orders.TopValidBid | src/app/api/orders/route.js:62-67 | None exactly when the product has no valid bid; otherwise a valid bid for the product whose amount no other valid bid for it exceeds. |
| Orders.ValidateLine | src/app/api/orders/route.js:32-79 | Definition of one line's checks, in the route's order; its properties are in `Orders.ValidatedLinesUseStoredPrice`, `Orders.SoldCheckTrustsStock`, `Orders.AuctionLineNeedsWin` and `Orders.ValidateLineReadsOneRow`. |
| Orders.ValidateCart | src/app/api/orders/route.js:31-83 | A successful validation yields one validated item per cart line. |
| Orders.ValidateCartMeaning | src/app/api/orders/route.js:31-83 | The cart validates iff every line passes its checks. On success the items are the lines' validated values, in order. A failure carries the error of the first failing line, and every earlier line passed. |
| Orders.FirstFailureWins | src/app/api/orders/route.js:31-72 | If the lines before k pass and line k fails, the whole cart fails with line k's error, whatever follows. |
| Orders.ValidateCartStep | src/app/api/orders/route.js:31-79 | A prefix that validates, followed by a line that passes, validates to the prefix's items plus that line's item. |
| Orders.OrderTotal | src/app/api/orders/route.js:82 | Definition of the accumulated total; its properties are in `Orders.OrderTotalStep` and `Orders.OrderTotalSplits`. |
| Orders.OrderTotalStep | src/app/api/orders/route.js:82 | Each further line adds exactly its price·qty + shipping to the total. |
| Orders.SubtotalAndShippingOfConcat | src/app/api/orders/route.js:82 | The subtotal and the shipping sum both distribute over concatenated item lists. |
| Orders.OrderTotalSplits | src/app/api/orders/route.js:82 | The order total is Σ price·qty plus Σ shipping: shipping is charged once per line, not per unit. |
| Orders.ApplyStock | src/app/api/orders/route.js:106-110 | The commit loop neither adds nor removes product rows. |
| Orders.ApplyStockAt | src/app/api/orders/route.js:98-110 | After the commit loop, a product's stock has fallen by the sum of its line quantities and no other field has changed. An untouched product keeps its status. A touched product whose final stock is ≤ 0 is 'sold'. |
| Orders.ApplyStockKeepsIds | src/app/api/orders/route.js:98-110 | The commit loop changes no product id. |
| Orders.QuantityForUnique | src/app/api/orders/route.js:106-108 | With distinct products, a product's decrement is exactly its own line's quantity. |
| Orders.QuantityForAbsent | src/app/api/orders/route.js:106-108 | A product on no line is decremented by nothing. |
| Orders.DecrementStock | src/app/api/orders/route.js:108 | Definition of the stock `UPDATE`; used by `Orders.CommitLine`, whose properties are in `Orders.ApplyStockAt`. |
| Orders.MarkSold | src/app/api/orders/route.js:102-104 | Definition of the mark-sold `UPDATE`; used by `Orders.CommitLine`, whose properties are in `Orders.ApplyStockAt`. |
| Orders.CommitLine | src/app/api/orders/route.js:107-109 | Definition of one line's decrement and mark-sold; its properties are in `Orders.ApplyStockAt` and `Orders.DistinctLineCommit`. |
| Orders.ValidatedLinesUseStoredPrice | src/app/api/orders/route.js:35-79 | For every line of a validated cart: the product exists and has enough stock, and the client price is within 10 paise of the stored price. The item records the stored price and shipping cost with the client's quantity. |
| Orders.SoldCheckTrustsStock | src/app/api/orders/route.js:41-43 | A line fails as already sold iff its product exists, is marked 'sold' and has stock ≤ 0. A 'sold' row with stock passes this check. |
| Orders.AuctionLineNeedsWin | src/app/api/orders/route.js:55-72 | An auction line that validates has an end time no later than now, and the caller holds a valid bid that no valid bid on the product exceeds. |
| Orders.SoleHighestBidderWins | src/app/api/orders/route.js:62-71 | A caller whose valid bid beats every other user's valid bid on the product is the auction winner. |
| Orders.ApplyStockUntouched | src/app/api/orders/route.js:106-110 | A product on no validated line is left exactly as it was. |
| Orders.ApplyStockUniqueAt | src/app/api/orders/route.js:106-110 | With distinct products, each product ends as its own line's single decrement-and-mark-sold leaves it. |
| Orders.DistinctLineCommit | src/app/api/orders/route.js:44-46 | In a validated cart with distinct ids, each line's product loses exactly the line's quantity. It ends with stock ≥ 0, and is 'sold' iff that stock is ≤ 0 (otherwise it keeps its status). |
| Orders.DistinctCartCommit | src/app/api/orders/route.js:106-110 | For a validated cart with distinct ids, every line's product is committed as above and never oversold. Products not in the cart are unchanged. |
| Orders.DuplicateLinesOversell | src/app/api/orders/route.js:44-46 | A one-unit product listed twice passes validation and ends with stock −1. |
| Orders.NegativeQuantityRestocks | src/app/api/orders/route.js:44-46 | A quantity of −1 passes validation, makes the order total negative and raises the stock. |
| Orders.ValidateLineGuarded | src/app/api/orders/route.js:44-46 | Definition of the corrected line check, which refuses quantities below 1 first; used by `Orders.ValidateCartGuarded`. |
| Orders.ValidateCartGuarded | src/app/api/orders/route.js:44-46 | Corrected validation. Each line is checked against the stock the earlier lines leave, and quantities below 1 are refused. On success there is one item per line, with that line's id and a quantity of at least 1. |
| Orders.GuardedCartNeverOversells | src/app/api/orders/route.js:106-110 | Under the corrected validation, no product in the cart ends with negative stock, with or without duplicate lines. |
| Orders.ValidateLineReadsOneRow | src/app/api/orders/route.js:32-72 | A line's outcome depends only on its own product's row. |
| Orders.GuardedAgreesOnStoreCarts | src/app/api/orders/route.js:31-83 | On carts with distinct ids and quantities ≥ 1, the corrected validation gives exactly the route's result. |
| Orders.CheckLine | src/app/api/orders/route.js:32-79 | One pass of the validation loop returns the specified check for that line. |
| Orders.CommitItem | src/app/api/orders/route.js:107-109 | Appends the line's order item, with the stored price, and applies one decrement and mark-sold to the products. |
| Orders.PaymentOrDefault | src/app/api/orders/route.js:89 | Definition of `paymentMethod \|\| 'COD'`; used by `Orders.InsertOrder`. |
| Orders.ValidateItems | src/app/api/orders/route.js:31-83 | The validation loop computes the cart's validation. On success, the accumulated total is the order total. |
| Orders.CommitItems | src/app/api/orders/route.js:94-110 | The commit loop appends one order item per validated line and leaves the products as the commit specification gives. The database stays well formed. |
| Orders.InsertOrder | src/app/api/orders/route.js:86-91 | Inserts one 'pending' order under the next id, with payment method defaulting to 'COD', and returns that id. |
| Orders.PlaceOrder | src/app/api/orders/route.js:30-113 | The transaction. On a validation failure it returns that error and changes no order, item or product. Otherwise it inserts exactly one pending order with the total and that order's items, and updates stock. |
| Orders.Checkout | src/app/api/orders/route.js:10-22 | No session, an empty cart or an empty address each return their error before anything is read or written. A failure leaves orders, items and products unchanged. Otherwise the result is the transaction's. |
| Cart.FirstIndex | src/context/CartContext.js:26 | The position of the first line with the id, or −1 when no line has it. |
| Cart.Find | src/context/CartContext.js:26 | A found line is in the cart and has the id. None iff no line has the id. |
| Cart.SameIdsSameIndex | src/context/CartContext.js:28-30 | Lists with the same ids in the same places find an id at the same place. |
| Cart.QuantityOrOne | src/context/CartContext.js:29-33 | Definition of `quantity \|\| 1`; used by `Cart.AddToCart` and `Cart.AddToCartTotals`. |
| Cart.IncreaseQuantity | src/context/CartContext.js:28-30 | Definition of the `prev.map` that raises a line's quantity; used by `Cart.AddToCart`. |
| Cart.AssignQuantity | src/context/CartContext.js:45-47 | Definition of the `prev.map` that sets a line's quantity; used by `Cart.UpdateQuantity`, whose properties are in `Cart.UpdateQuantityEffect`. |
| Cart.AddToCart | src/context/CartContext.js:24-35 | Adding an id already present keeps every line at its position with its id, leaves lines of other ids equal, and raises that id's quantity by `quantity \|\| 1`. A new id appends one line. Other ids read as before, and unique ids stay unique. |
| Cart.RemoveFromCart | src/context/CartContext.js:37-39 | Removal never lengthens the cart. |
| Cart.RemoveFromCartMembers | src/context/CartContext.js:37-39 | The remaining lines are exactly the cart's lines with another id. |
| Cart.ClearCart | src/context/CartContext.js:51 | The cleared cart holds no product. |
| Cart.UpdateQuantity | src/context/CartContext.js:41-49 | Definition of `updateQuantity`; its properties are in `Cart.UpdateQuantityEffect`. |
| Cart.TotalItems | src/context/CartContext.js:53 | Definition of `totalItems`; its properties are in `Cart.TotalsOfConcat`, `Cart.AddToCartTotals` and `Cart.RemoveFromCartTotals`. |
| Cart.TotalPrice | src/context/CartContext.js:54 | Definition of `totalPrice`; its properties are in `Cart.TotalsOfConcat` and `Cart.AddToCartTotals`. |
| Cart.TotalsOfConcat | src/context/CartContext.js:53-54 | Both totals distribute over concatenation. |
| Cart.TailOfUnique | src/context/CartContext.js:24-51 | The tail of a cart with unique ids has unique ids and does not repeat the head's id. |
| Cart.RemoveAbsent | src/context/CartContext.js:37-39 | Removing an id that no line has leaves the cart unchanged. |
| Cart.RemoveUpToFirst | src/context/CartContext.js:37-39 | Removal keeps every line before the first match, and filters the rest. |
| Cart.RemoveCutsOutLine | src/context/CartContext.js:37-39 | In a cart with unique ids, removal cuts out exactly the one line with the id and keeps the others in order. |
| Cart.CutKeepsUnique | src/context/CartContext.js:37-39 | Cutting one line out keeps ids unique. |
| Cart.RemoveKeepsUnique | src/context/CartContext.js:37-39 | Removal preserves unique ids. |
| Cart.TotalsOfReplace | src/context/CartContext.js:28-30 | Replacing one line changes the totals by exactly that line's difference. |
| Cart.AddToCartTotals | src/context/CartContext.js:24-35 | Adding raises the item total by `quantity \|\| 1`, and the price total by the line's price times that. |
| Cart.RemoveFromCartTotals | src/context/CartContext.js:37-39 | Removal lowers the item total by the removed line's quantity. |
| Cart.TotalsOfCut | src/context/CartContext.js:37-39 | Cutting out a line lowers the item total by that line's quantity. |
| Cart.RemoveKeepsOthers | src/context/CartContext.js:37-39 | Removing one id leaves every other id's line as it was. |
| Cart.UpdateQuantityEffect | src/context/CartContext.js:41-49 | A quantity below 1 is removal. Otherwise every line keeps its position and id, lines of other ids stay equal, and that id's line takes the new quantity. Other ids read as before, and ids stay unique. |
| ProductActions.OfferFor | src/components/ProductActions.js:83-158 | Showcase items show only the museum notice. Direct-buy items get the buy box. An ended auction offers pay-now iff the viewer is the winner. A running auction shows the bid form, marked leading iff the viewer is the highest bidder. |
| ProductActions.AuctionEnded | src/components/ProductActions.js:25 | Definition of `auctionEnded`; its properties are in `ProductActions.WinnerAndLeaderExclusive` and `ProductActions.PayNowPassesServerAuctionChecks`. |
| ProductActions.IsWinner | src/components/ProductActions.js:28 | Definition of `isWinner`; its properties are in `ProductActions.WinnerAndLeaderExclusive` and `ProductActions.PayNowPassesServerAuctionChecks`. |
| ProductActions.IsHighestBidder | src/components/ProductActions.js:29 | Definition of `isHighestBidder`; its properties are in `ProductActions.WinnerAndLeaderExclusive` and `ProductActions.OfferFor`. |
| ProductActions.HighestBidder | src/components/ProductActions.js:11 | The user of the top valid bid on the product, the value the `highestBidderId` prop is meant to carry; used by `ProductActions.PayNowPassesServerAuctionChecks` and by the guarded prop `ProductActions.PageHighestBidderGuarded`. The product page runs this query only when `is_auction === true` (see `ProductActions.PageHighestBidder`). |
| ProductActions.PageHighestBidder | src/components/ProductActions.js:11 | Definition of the prop as the product page passes it: the bid query runs only under `is_auction === true` (`ProductActions.StrictlyTrue`, never true for the INTEGER column), otherwise the prop is null. Its properties are in `ProductActions.PagePropAlwaysNull`. |
| ProductActions.PagePropAlwaysNull | src/components/ProductActions.js:28-29 | As the page is written the prop is always null, so `isWinner` and `isHighestBidder` are never true and an ended auction never offers pay-now to anyone. |
| ProductActions.GuardedPropShowsWinner | src/components/ProductActions.js:17-29 | With the query guarded by the panel's own auction test (`is_auction === 1`), the viewer is the winner iff the auction has ended and they hold the top valid bid, is leading iff it is running and they hold it, and the winner of an ended auction is offered pay-now. |
| ProductActions.ProductPanel.HandleBidChange | src/components/ProductActions.js:133 | The bid field's change handler: the bid amount becomes the number typed. |
| ProductActions.WinnerAndLeaderExclusive | src/components/ProductActions.js:25-29 | A viewer is never both winner and current highest bidder, and only an auction has a winner. |
| ProductActions.PayNowPassesServerAuctionChecks | src/components/ProductActions.js:25-28 | A viewer shown as winner, when the page's highest bidder is the top valid bid, passes the route's auction-ended and auction-winner checks. |
| ProductActions.MaxPerUser | src/components/ProductActions.js:164 | Definition of `max_per_user \|\| stock`; its properties are in `ProductActions.MaxLimit` and `ProductActions.LimitIsStockOrCap`. |
| ProductActions.MaxLimit | src/components/ProductActions.js:163-165 | The limit is the smaller of the stock and the per-user cap, which falls back to the stock when the cap is unset or 0. |
| ProductActions.LimitIsStockOrCap | src/components/ProductActions.js:163-165 | Without a cap the limit is the stock. With a cap it never exceeds the cap. |
| ProductActions.RemainingStock | src/components/ProductActions.js:172 | Definition of `remainingStock`; its properties are in `ProductActions.OutOfStockIffCartHoldsLimit` and `ProductActions.AddWithinLimit`. |
| ProductActions.IsOutOfStock | src/components/ProductActions.js:173 | Definition of `isOutOfStock`; its properties are in `ProductActions.OutOfStockIffCartHoldsLimit`. |
| ProductActions.OutOfStockIffCartHoldsLimit | src/components/ProductActions.js:168-173 | Out of stock iff the cart's line for the product already holds the limit. With no line, iff the limit is ≤ 0. |
| ProductActions.StepDown | src/components/ProductActions.js:210 | The − button never goes below 1, and lowers a quantity of 2 or more by one. |
| ProductActions.StepUp | src/components/ProductActions.js:225 | The + button never exceeds max(1, remaining), raises by at most one, and raises by one when room remains. |
| ProductActions.AddWithinLimit | src/components/ProductActions.js:181-186 | An add the guard allows, while the button is enabled, grows the product's cart line without passing the limit. |
| ProductActions.ProductPanel.constructor | src/components/ProductActions.js:162 | The panel starts with quantity 1 and an empty bid. |
| ProductActions.ProductPanel.HandleQuantityChange | src/components/ProductActions.js:190-200 | A blank field is kept blank. A typed number in 1..limit is taken. Any other number leaves the quantity as it was. |
| ProductActions.ProductPanel.HandleBlur | src/components/ProductActions.js:202-204 | Leaving the field turns a blank into a number and keeps an entered quantity. |
| ProductActions.ProductPanel.Decrement | src/components/ProductActions.js:210 | The quantity becomes the − step of its number. |
| ProductActions.ProductPanel.Increment | src/components/ProductActions.js:225 | The quantity becomes the + step, bounded by the remaining quantity. |
| ProductActions.ProductPanel.HandleAddToCart | src/components/ProductActions.js:175-188 | Without a session, nothing is added and login is asked for. A quantity above the remaining one is refused, reporting what remains, and the cart is unchanged. Otherwise the product is added with that quantity and the line stays within the limit. |
| ProductActions.ProductPanel.HandlePayNow | src/components/ProductActions.js:31-39 | Without a session, the cart is unchanged and login is asked for. Otherwise the product is added with the default quantity. |
| ProductActions.ProductPanel.HandleBid | src/components/ProductActions.js:41-81 | No session asks for login, an ended auction reports it, and an amount not above the price is refused as too low. A bid is sent iff there is a session, the auction is running and the amount exceeds the price. The amount sent is the typed one, and the field is cleared only when the bid is accepted. |
| CheckoutPage.ShippingTotal | src/app/checkout/page.js:98 | Definition of `shippingTotal`; its properties are in `CheckoutPage.ShippingIgnoresQuantity` and `CheckoutPage.TotalsAgreeLineByLine`. |
| CheckoutPage.GrandTotal | src/app/checkout/page.js:99 | Definition of `grandTotal`; its properties are in `CheckoutPage.GrandTotalMatchesServer`. |
| CheckoutPage.ShippingIgnoresQuantity | src/app/checkout/page.js:98 | The shipping total depends only on the lines' shipping costs, not their quantities. |
| CheckoutPage.TotalsAgreeLineByLine | src/app/checkout/page.js:98-99 | Lines matching the server's validated items line by line give the server's subtotal and shipping sum. |
| CheckoutPage.GrandTotalMatchesServer | src/app/checkout/page.js:99 | When the cart's prices and shipping costs are the stored ones, the page's grand total equals the order total the route charges. |
| CheckoutPage.FullAddress | src/app/checkout/page.js:60 | The address is the name, then the fixed separators and the other fields, ending with the phone. Its length is the fields' total plus 16. |
| CheckoutPage.PageView | src/app/checkout/page.js:32-50 | Definition of which view renders; its properties are in `CheckoutPage.FormRequestPassesPrechecks`. |
| CheckoutPage.FormRequestPassesPrechecks | src/app/checkout/page.js:32-60 | A request leaves only the checkout form, which needs a session and a non-empty cart. Its address is never empty, so it passes the route's first three checks. |
| CheckoutPage.FailureMessage | src/app/checkout/page.js:79 | Definition of `data.message \|\| 'Checkout failed'`, used in `CheckoutPage.CheckoutScreen.HandleSubmit`'s ensures for the rejection case. |
| CheckoutPage.CheckoutScreen.constructor | src/app/checkout/page.js:19-30 | The page starts with an empty form, paying by UPI, with no error and no modal. |
| CheckoutPage.CheckoutScreen.HandleChange | src/app/checkout/page.js:94-96 | Only the edited field takes the typed value. |
| CheckoutPage.CheckoutScreen.HandleSubmit | src/app/checkout/page.js:55-92 | Sends the cart with the formatted address and payment method. Success clears the cart and goes to the confirmation. A rejection or network failure keeps the cart, sets the error and opens the failure modal. Loading ends either way. |
| AdminOrders.ActionsOffered | src/app/admin/orders/client.js:173 | Ship and cancel are offered iff the order is neither shipped nor cancelled, and each offered action leads to a terminal status. |
| AdminOrders.UpdateStatusList | src/app/admin/orders/client.js:56 | Only orders with the matching id change, taking the new status and tracking id. The list's length, order and other orders are unchanged. |
| AdminOrders.UpdateStatusIdempotent | src/app/admin/orders/client.js:56 | Applying the same update twice is the same as once. |
| AdminOrders.UpdatesOfDifferentOrdersCommute | src/app/admin/orders/client.js:56 | Updates of two different orders commute. |
| AdminOrders.OfferedActionIsFinal | src/app/admin/orders/client.js:173 | After an offered action is applied, the order offers no further action. |
| AdminOrders.RequestOnConfirm | src/app/admin/orders/client.js:39-83 | Confirming sends a request iff an action is pending, for that action's order. Shipping sends the typed tracking id. Other statuses send no tracking id. |
| AdminOrders.OrdersScreen.constructor | src/app/admin/orders/client.js:14-17 | The list starts with the given orders, no modal, no pending action and an empty input. |
| AdminOrders.OrdersScreen.OpenConfirm | src/app/admin/orders/client.js:19-24 | Opens the confirm modal holding the action and title. |
| AdminOrders.OrdersScreen.OpenInput | src/app/admin/orders/client.js:26-32 | Opens the input modal with the input cleared, holding the action and title. |
| AdminOrders.OrdersScreen.CloseModal | src/app/admin/orders/client.js:34-37 | No modal and no pending action remain. |
| AdminOrders.OrdersScreen.SetInput | src/app/admin/orders/client.js:16 | The input holds what was typed. |
| AdminOrders.OrdersScreen.HandleStatusChange | src/app/admin/orders/client.js:68-83 | 'shipped' opens the tracking input with a pending ship action. Any other status opens the confirm modal with a pending status change. |
| AdminOrders.OrdersScreen.HandleConfirm | src/app/admin/orders/client.js:39-66 | Sends the pending action's request, shipping with the typed tracking id. An accepted update changes the list as specified, and a failed or absent one leaves it. The modal always closes. |
| Countdown.CalculateTimeLeft | src/components/CountdownTimer.js:12-22 | 'Auction Ended' iff the difference is ≤ 0. Otherwise hours < 24, minutes < 60 and seconds < 60, and the parts rebuild the difference to within one second below it. |
| Countdown.SplitReconstructs | src/components/CountdownTimer.js:15-18 | Days, hours mod 24, minutes mod 60 and seconds mod 60 rebuild the whole seconds of the difference. |
| Countdown.TimeLeftShrinks | src/components/CountdownTimer.js:12-22 | A smaller difference never shows more time left. |
| Countdown.Render | src/components/CountdownTimer.js:9-35 | Nothing renders without a target date. With one, the ended notice shows iff the target is not after now. |
| ShopQuery.PlaceholderIndicesOfConcat | src/app/shop/page.js:57-66 | The placeholder numbers of joined SQL are those of each part, in order. |
| ShopQuery.OnlyFixedTextOfConcat | src/app/shop/page.js:57-67 | Joining SQL made only of fixed fragments keeps it so. |
| ShopQuery.AppendPiece | src/app/shop/page.js:57-67 | Appending a placeholder adds its number last. Appending a fixed fragment keeps the text fixed. |
| ShopQuery.OneToSucc | src/app/shop/page.js:57-66 | Counting on by one extends 1..n to 1..n+1. |
| ShopQuery.OrderBy | src/app/shop/page.js:116-123 | The sort clause is always one of the five fixed clauses, and an unknown sort gives newest first. |
| ShopQuery.OrDefault | src/app/shop/page.js:10-12 | Definition of `searchParams.x \|\| fallback`; used by `ShopQuery.ReadParams`. |
| ShopQuery.ReadParams | src/app/shop/page.js:10-13 | A given non-empty q, sort or category is kept. Absent ones become '', 'date_desc' and 'all', so sort and category are never empty. The page is `Number(page) \|\| 1`. |
| ShopQuery.PageNumber | src/app/shop/page.js:13 | The page is never 0 and defaults to 1. |
| ShopQuery.Offset | src/app/shop/page.js:14-15 | The offset is a multiple of the page size, and non-negative iff the page is at least 1. |
| ShopQuery.TotalPages | src/app/shop/page.js:113 | The page count is the ceiling of items over 12. |
| ShopQuery.PaginationShownIffMoreThanOnePage | src/app/shop/page.js:194 | The `totalPages > 1` test holds iff there are more than 12 items. |
| ShopQuery.LinksShown | src/app/shop/page.js:180-194 | Definition of when the page links render: the page lists items and there is more than one page; its properties are in `ShopQuery.LinksShownOnlyWithMoreThanOnePage`. |
| ShopQuery.LinksShownOnlyWithMoreThanOnePage | src/app/shop/page.js:180-194 | Links show only when there are more than 12 items, and exactly then on a page that lists items. An empty page, such as one past the last, shows no links. |
| ShopQuery.OffsetsTilePages | src/app/shop/page.js:13-15 | Every item falls on exactly one page within the page count. |
| ShopQuery.AppendSearch | src/app/shop/page.js:57-61 | The search clause keeps the query before it and uses the next two placeholder numbers, with no user text in the SQL. |
| ShopQuery.AppendCategory | src/app/shop/page.js:62-66 | The category clause keeps the query before it and uses the next placeholder number, with no user text in the SQL. |
| ShopQuery.LikePattern | src/app/shop/page.js:101 | Definition of the `%q%` search pattern; used by `ShopQuery.FilterValues` and `ShopQuery.AppendSearch`. |
| ShopQuery.FilterValues | src/app/shop/page.js:95-108 | Definition of the bound values in binding order; its properties are in `ShopQuery.AppendFilters`, `ShopQuery.BuildAuctionQuery` and `ShopQuery.BuildDirectQuery`. |
| ShopQuery.AppendFilters | src/app/shop/page.js:95-108 | A search adds two `%q%` values and a category other than 'all' adds one. The counter is the parameter count plus one, and the placeholders run 1..n. |
| ShopQuery.BuildAuctionQuery | src/app/shop/page.js:53-67 | The auction query binds exactly the filter values, its placeholders run 1..n, and all its text is fixed. |
| ShopQuery.BuildDirectQuery | src/app/shop/page.js:95-126 | The count and page queries bind the filter values, and the page query adds LIMIT and OFFSET last. Placeholders run 1..n in both. All the text is fixed, including the whitelisted sort. |
| ShopToolbar.Get | src/components/ShopToolbar.js:11-14 | `get` is the first pair's value for the name, or none iff no pair has the name. |
| ShopToolbar.Delete | src/components/ShopToolbar.js:39 | `delete` drops exactly the pairs with the name. |
| ShopToolbar.SetFirst | src/components/ShopToolbar.js:22 | Definition of `set` on a name already present; its properties are in `ShopToolbar.SetFirstEffect`. |
| ShopToolbar.Set | src/components/ShopToolbar.js:22 | Definition of `set`; its properties are in `ShopToolbar.SetEffect` and `ShopToolbar.SetTouchesOnlyItsName`. |
| ShopToolbar.DeleteOfConcat | src/components/ShopToolbar.js:39 | `delete` distributes over concatenation. |
| ShopToolbar.DeleteTwice | src/components/ShopToolbar.js:19 | Deleting twice is deleting once. |
| ShopToolbar.GetAfterDeleteOther | src/components/ShopToolbar.js:19 | Deleting one name leaves every other name's value. |
| ShopToolbar.SetFirstEffect | src/components/ShopToolbar.js:22 | Overwriting an existing name makes it read as the new value and leaves the other names. |
| ShopToolbar.SetEffect | src/components/ShopToolbar.js:31 | After `set`, the name reads as the new value and every other name reads as before. |
| ShopToolbar.SetTouchesOnlyItsName | src/components/ShopToolbar.js:31 | `set` changes nothing but the pairs of its own name. |
| ShopToolbar.GetOfAppend | src/components/ShopToolbar.js:18 | An appended pair is read only when no earlier pair has its name. |
| ShopToolbar.SearchParamList.constructor | src/components/ShopToolbar.js:17 | The copy holds the current URL's parameters. |
| ShopToolbar.SearchParamList.SetParam | src/components/ShopToolbar.js:18 | The list becomes `set` of the old list. |
| ShopToolbar.SearchParamList.DeleteParam | src/components/ShopToolbar.js:39 | The list becomes `delete` of the old list. |
| ShopToolbar.GetOr | src/components/ShopToolbar.js:11-14 | Definition of `searchParams.get(x) \|\| fallback`; used by `ShopToolbar.InitialControls`. |
| ShopToolbar.InitialControls | src/components/ShopToolbar.js:11-14 | Missing parameters give an empty search, sort 'date_desc' and category 'all'. |
| ShopToolbar.Settle | src/components/ShopToolbar.js:17-22 | Definition of the URL the search effect pushes; its properties are in `ShopToolbar.SettleEffect`. |
| ShopToolbar.SettleEffect | src/components/ShopToolbar.js:17-22 | After the effect, q reads as the term (absent when the term is empty), page reads '1', and every other name reads as before. |
| ShopToolbar.MountResetsPage | src/components/ShopToolbar.js:16-25 | The effect's run at mount, with the URL's own term, leaves every loaded URL on page '1'. |
| ShopToolbar.DirectLoadOfPageThree | src/components/ShopToolbar.js:16-25 | A load of `/shop?page=3` asks for page '3' and ends on page '1'. |
| ShopToolbar.SettleOnChange | src/components/ShopToolbar.js:16-25 | Corrected effect, run only when the settled term differs from the URL's q; its properties are in `ShopToolbar.SettleOnChangeKeepsLoadedPage`. |
| ShopToolbar.SettleOnChangeKeepsLoadedPage | src/components/ShopToolbar.js:16-25 | With the guard, mounting leaves the URL and its page as loaded, and a changed term still sets or drops q and returns to page '1'. |
| ShopToolbar.Toolbar.constructor | src/components/ShopToolbar.js:11-25 | The controls start from the URL, and the search effect then runs once with the URL's own search term, so the URL becomes `Settle` of it: `q` as before (dropped when empty) and page '1'. |
| ShopToolbar.Toolbar.SearchSettled | src/components/ShopToolbar.js:16-25 | The URL becomes `Settle` of the old URL: a non-empty search term sets q and an empty one drops it. Page becomes '1', and all other parameters read as before. |
| ShopToolbar.Toolbar.HandleSortChange | src/components/ShopToolbar.js:27-33 | Only sort changes, both in the controls and in the URL. The page and every other parameter are kept. |
| ShopToolbar.Toolbar.HandleCategoryChange | src/components/ShopToolbar.js:35-43 | 'all' drops the category and anything else sets it. Page becomes '1', and the other parameters read as before. |
| NewProduct.EncodeIsAuction | src/app/admin/products/new/page.js:73 | The submitted code is 2 iff showcase is selected, 1 iff showcase is not selected and the auction flag is truthy, and 0 iff neither holds. |
| NewProduct.RadioFields | src/app/admin/products/new/page.js:237-253 | Definition of the flag and mode each radio's handler writes; its properties are in `NewProduct.RadioEncodesChoice`. |
| NewProduct.RadioChecked | src/app/admin/products/new/page.js:236-252 | Definition of when each radio shows checked; its properties are in `NewProduct.RadioEncodesChoice`. |
| NewProduct.RadioEncodesChoice | src/app/admin/products/new/page.js:236-253 | After a radio button is clicked, the submitted code is that button's mode, and exactly that button shows checked. |
| NewProduct.InitialFields | src/app/admin/products/new/page.js:9-19 | The fresh form encodes direct buy, and shows the direct-buy radio checked. |
| NewProduct.KeepOthers | src/app/admin/products/new/page.js:59 | The filter drops exactly the entry at the index, when the index is in range, and keeps the rest in order. |
| NewProduct.RemoveMedia | src/app/admin/products/new/page.js:56-61 | Removing an index in range drops exactly that item and keeps the rest in order. Any other index changes nothing. |
| NewProduct.KindOf | src/app/admin/products/new/page.js:44 | An item is a video iff its MIME type starts with 'video/'. |
| NewProduct.Uploaded | src/app/admin/products/new/page.js:36-50 | The upload loop collects at most one item per file. |
| NewProduct.UploadedOfConcat | src/app/admin/products/new/page.js:36-50 | Collected items follow the files' order. |
| NewProduct.UploadedFromSuccesses | src/app/admin/products/new/page.js:40-49 | Every successful upload yields its item, typed by MIME type, and every item comes from a successful upload. Failures add nothing. |
| NewProduct.ProductForm.constructor | src/app/admin/products/new/page.js:8-19 | The form starts with its initial fields, no media and not loading. |
| NewProduct.ProductForm.HandleChange | src/app/admin/products/new/page.js:21-27 | The named field takes the checkbox's flag or the input's value. No other field changes. |
| NewProduct.ProductForm.SelectMode | src/app/admin/products/new/page.js:237-253 | A radio click writes its flag and mode pair, and the submitted code becomes that mode's. |
| NewProduct.ProductForm.HandleRemoveMedia | src/app/admin/products/new/page.js:56-61 | The media list becomes the list with that index removed. |
| NewProduct.ProductForm.HandleFileUpload | src/app/admin/products/new/page.js:29-54 | With no files nothing changes. Otherwise the successful uploads are appended after the existing media, in file order, and loading ends. |
| ProductsApi.NumberOr | src/app/api/products/route.js:39 | A missing or zero field takes the fallback. Anything else is kept. |
| ProductsApi.NumberOrNull | src/app/api/products/route.js:39 | A zero cap becomes null. Anything else is kept. |
| ProductsApi.MainImage | src/app/api/products/route.js:27-30 | The thumbnail is the first media url for a non-empty array, and otherwise empty. |
| ProductsApi.NewRow | src/app/api/products/route.js:34-39 | The inserted row is 'available' under its id. A missing shipping cost is 0, a missing stock is 1 and a missing cap is null. The row carries the request's title, price and selling mode and the chosen thumbnail. |
| ProductsApi.MediaRowsFor | src/app/api/products/route.js:46-48 | There is at most one media row per entry. |
| ProductsApi.MediaRowsCopyEntries | src/app/api/products/route.js:46-48 | Rows are written exactly for the entries with a url, all for the new product. |
| ProductsApi.MainImageIsFirstRow | src/app/api/products/route.js:27-48 | A non-empty thumbnail is the url of the first media row written. |
| ProductsApi.FirstRowComesFirst | src/app/api/products/route.js:46-48 | An entry with a url at the head of the list gives the first row. |
| ProductsApi.MediaRowsOfConcat | src/app/api/products/route.js:46-48 | Media rows follow the entries' order. |
| ProductsApi.InsertMedia | src/app/api/products/route.js:44-48 | The loop appends exactly the rows for the entries with a url, in order. |
| ProductsApi.CreateProduct | src/app/api/products/route.js:16-52 | A caller who is not an admin is refused and nothing is written. Otherwise one row goes in under a fresh id, followed by its media rows, and that id is returned. |
| SettingsApi.FoldRows | src/app/api/settings/route.js:9-12 | Definition of the `reduce` over the rows; its properties are in `SettingsApi.FoldedKeys`, `SettingsApi.LastRowWins` and `SettingsApi.ReadsBackTable`, and `SettingsApi.GetSettings` computes it. |
| SettingsApi.FoldedKeys | src/app/api/settings/route.js:9-12 | A key is in the settings object iff some row carries it. |
| SettingsApi.LastRowWins | src/app/api/settings/route.js:9-12 | A key's value is that of the last row carrying it. |
| SettingsApi.ReadsBackTable | src/app/api/settings/route.js:8-12 | Rows that list a key-value table, each key present, read back as that table. |
| SettingsApi.LastIndexOf | src/app/api/settings/route.js:9-12 | Finds the last row with a given key. |
| SettingsApi.GetSettings | src/app/api/settings/route.js:9-12 | The accumulating loop builds the fold of the rows. |
| SettingsApi.Upserted | src/app/api/settings/route.js:36-46 | After the upserts, the stored keys are the old ones plus the listed keys the body defines. |
| SettingsApi.UpsertedStep | src/app/api/settings/route.js:36-46 | Each further key adds its upsert only when the body defines it. |
| SettingsApi.UpsertedValues | src/app/api/settings/route.js:37-44 | A listed key the body defines takes the body's value. Every other stored key keeps its value. |
| SettingsApi.UpsertKeys | src/app/api/settings/route.js:33-51 | The loop fails iff the rejected upsert is issued. A failure rolls back to the settings before the loop. Otherwise the result is every defined upsert. |
| SettingsApi.SaveSettings | src/app/api/settings/route.js:20-56 | A non-admin is refused and nothing is written. A rejected upsert fails and changes nothing. Otherwise exactly the whitelisted upserts are applied. |
| SettingsApi.SaveTouchesOnlyWhitelist | src/app/api/settings/route.js:29-46 | A save changes only whitelisted keys that the body defines, and each takes the body's value. Other keys, and whitelisted keys the body leaves undefined, are as before. |
| Register.InsertKeepsEmailsUnique | src/app/api/auth/register/route.js:22-42 | Inserting an account whose email is not taken keeps emails unique. |
| Register.RegisterUser | src/app/api/auth/register/route.js:5-48 | A missing field, then a taken email, are refused with no insert. Otherwise exactly one 'user' account is inserted under a fresh id, holding the password's hash, and email uniqueness is kept. |
| ChangePassword.PasswordUpdateKeepsEmails | src/app/api/auth/change-password/route.js:42 | Changing a password changes no email. |
| ChangePassword.ChangeUserPassword | src/app/api/auth/change-password/route.js:7-44 | No session, a missing password, an unknown user and a wrong current password are refused in that order, with no change. Otherwise only the caller's password changes, to the hash of the new one. |
| StockRepair.Repaired | fix_stock_status.js:7-11 | A repaired row is not stale and keeps its stock. A row that was not stale is untouched. |
| StockRepair.RepairAll | fix_stock_status.js:7-11 | The sweep keeps every id and repairs each row. |
| StockRepair.RepairEffect | fix_stock_status.js:7-11 | Afterwards no row is stale and no stock has changed. Rows that were not stale are untouched. Stale rows become 'available' and change in nothing else. |
| StockRepair.RepairIdempotent | fix_stock_status.js:7-13 | A second sweep changes nothing and selects no row. |
| StockRepair.ScanStep | fix_stock_status.js:7-11 | Visiting one more id keeps the scan's bookkeeping. |
| StockRepair.ScanStart | fix_stock_status.js:7-11 | The scan starts with nothing repaired and a count of zero. |
| StockRepair.ScanDone | fix_stock_status.js:7-13 | Past every id, the table is the repaired table, and the count is the number of stale rows. |
| StockRepair.RepairKeepsIds | fix_stock_status.js:8-10 | The sweep keeps rows under their own ids. |
| StockRepair.RepairRow | fix_stock_status.js:8-10 | One row's update repairs that row and reports whether it was selected. |
| StockRepair.Sweep | fix_stock_status.js:7-11 | The update over the table yields the repaired table and returns the number of stale rows. |
| StockRepair.RepairStatuses | fix_stock_status.js:7-13 | The script repairs the table, reports the number of stale rows, and keeps the table well formed. |

## Left out

- Floating point. Prices are integer paise and times integer milliseconds, so IEEE rounding of REAL prices and of `Math.floor` on doubles is not modelled.
- Orders.ValidateLine, Cart, ProductActions.ProductPanel.HandleQuantityChange, ShopQuery.PageNumber and ShopQuery.Offset take quantities and page numbers as integers. JavaScript also accepts fractional numbers there, and the model does not capture them. A typed quantity of 1.5 passes the quantity field (src/components/ProductActions.js:195-199). The order route accepts a quantity of 0.5, charges half the price plus shipping, leaves stock 0.5 and never marks the product sold (src/app/api/orders/route.js:44, :82, :103-109). A URL with `page=1.5` gives offset 6, which is not a multiple of the page size (src/app/shop/page.js:13-15).
- Concurrency and isolation. Checkout is one atomic method, and interleavings of requests are not modelled.
- Orders.TopValidBid: `ORDER BY amount DESC LIMIT 1` leaves ties open. The model picks the earliest of the maximal valid bids. Its contract promises only a maximal valid bid, and no lemma depends on which one.
- Sessions, bcrypt, blob uploads and the database driver. Each is a parameter: the session principal, the hash and compare functions, the upload results, and the position of a rejected settings upsert.
- SettingsApi.SaveSettings: database errors other than a rejected upsert, and the 500 responses of every route's catch block, are not modelled.
- JSON shapes. A JSON null or a non-string settings value, and string-to-number coercion of request fields, are not modelled. Absent fields are `None`, and falsy means `None`, the empty string or 0.
- ProductActions.ProductPanel.HandleBid: the bid field holds a number, and an empty field counts as 0, which never exceeds a price.
- ProductActions.ProductPanel.HandleQuantityChange: a blank quantity counts as 0 in the stepper and the add check. This is JavaScript's `Number('')`.
- Timers and browser storage: the countdown's one-second interval, the toolbar's 500 ms debounce, toast dismissal, and the cart's localStorage load and save.
- Countdown.Render: the `d h m s` string formatting is not modelled. The contract is stated on the numeric parts.
- Router navigation, toasts, alerts and modal message text other than the checkout failure texts.
- The unused `buildQuery` helper in src/app/shop/page.js:18-50. Nothing calls it.
- The order-status, bid-placement and bid-adjudication routes are not part of this model. Neither is stock restoration on cancel.
- The products GET route, other read-only pages and the one-off maintenance scripts other than the status repair.
- StockRepair.Sweep: the UPDATE is visited as a scan in id order. The SQL statement is set-at-a-time, and the result does not depend on the order.

## Findings

| source | as written | input that shows it | evidently intended | confidence | as-written member | corrected member |
|---|---|---|---|---|---|---|
| src/app/api/orders/route.js:44 | Each line's stock check reads the stock stored before any decrement (line 108), so lines for the same product are checked independently. | A product with stock 1 and a cart holding two lines for it, quantity 1 each: both pass, and the stock ends at −1. | Every line is checked against the stock the earlier lines leave, so no order oversells. | not executed | Orders.DuplicateLinesOversell | Orders.ValidateCartGuarded |
| src/app/api/orders/route.js:44 | `stock < quantity` is the only check on the quantity, so zero and negative quantities pass. | A product with stock 1 and one line of quantity −1: the order total is −10000 paise and the stock rises to 2. | Quantities below 1 are refused. | not executed | Orders.NegativeQuantityRestocks | Orders.ValidateCartGuarded |
| src/components/ShopToolbar.js:16-25 | The search effect also runs when the toolbar mounts, because `debouncedSearch` starts as the URL's `q`, and it always sets `page=1`. | A direct load or refresh of `/shop?page=3`: the toolbar mounts and pushes `/shop?page=1`. | The page is reset only when the search term changes ("Reset page on new search"). A freshly loaded URL keeps its page. | not executed | ShopToolbar.DirectLoadOfPageThree | ShopToolbar.SettleOnChangeKeepsLoadedPage |
| src/components/ProductActions.js:17 | The product page fetches the highest bidder only when `product.is_auction === true`, but `is_auction` is an INTEGER column (0, 1 or 2) and the panel's own auction test is `=== 1`, so the page's test never holds and `highestBidderId` is always null. | An auction that has ended, viewed by the user who placed its top valid bid: the panel shows no winner and no pay-now button. | The page fetches the highest bidder whenever the product is an auction, so the winner can pay. | not executed | ProductActions.PagePropAlwaysNull | ProductActions.GuardedPropShowsWinner |

`Orders.GuardedCartNeverOversells` proves the corrected validation never
oversells. `Orders.GuardedAgreesOnStoreCarts` proves the correction gives
exactly the route's result on carts the cart store produces. Those are carts
with unique ids (`Cart.AddToCart`, `Cart.RemoveKeepsUnique`) and quantities
of at least one. The transaction methods (`Orders.PlaceOrder`,
`Orders.Checkout`) follow the route as written, and on those carts they
behave as the corrected validation does.

`ShopToolbar.MountResetsPage` proves the page reset at mount holds for every
loaded URL. The toolbar class (`ShopToolbar.Toolbar`) follows the component as
written. The guarded effect `ShopToolbar.SettleOnChange` is the correction:
`ShopToolbar.SettleOnChangeKeepsLoadedPage` proves that it keeps the loaded URL
at mount and still returns to page 1 on a new search.

`ProductActions.PagePropAlwaysNull` proves that, with the product page's test
as written, no viewer is ever shown as winner or leader. The corrected prop
`ProductActions.PageHighestBidderGuarded` runs the query in auction mode, and
`ProductActions.GuardedPropShowsWinner` proves the panel then identifies the
holder of the top valid bid. `ProductActions.PayNowPassesServerAuctionChecks`
takes the prop to be the holder of the top valid bid, which is what the
corrected prop passes for an auction.
