# We-deliver order and cart model

This project is a Dafny model of the order and cart logic of the We-deliver
("SwiftDrop SA") delivery marketplace. The logic covers four parts:

- the application store: the current user, the cart, the orders, and the
  reducers `login`, `logout`, `addToCart`, `removeFromCart`, `clearCart`,
  `placeOrder` and `updateOrderStatus`;
- the customer view's line pricing, subtotal, fixed fees and checkout;
- the driver view's order lists, its accept action and its
  ACCEPTED → PICKED_UP → IN_TRANSIT → DELIVERED button;
- the two restaurant dashboards (lookup, pending and active queues, the
  kitchen buttons) and the admin dashboard's GMV and status breakdown.

Everything is a pure function over immutable datatypes. The store's `set`
merges shallowly, so every reducer states which fields it changes and that
the rest of the state is unchanged. Money is integer cents: R25.00 is 2500.

The code has **no** order state machine. `updateOrderStatus` writes any
status over any other, for any caller, and has no error path. The model
states this as `Store.UpdateIgnoresCurrentStatus`. Status changes come only
from the view handlers: `DriverApp.HandleAccept`,
`DriverApp.HandleStatusUpdate`, `RestaurantAdminDashboard.PressButton` and
`RestaurantDashboard.HandleUpdate`. None of them checks the order's current
status or who the actor is.

Other facts about the code that the model keeps:

- an unknown order id makes a status update a silent no-op;
- `removeFromCart` with an out-of-range index leaves the cart unchanged;
- checkout with an empty cart does nothing;
- a line's `totalPrice` is the unit price and is never multiplied by the
  quantity, which is always 1;
- the delivery and service fees are the constants 25.00 and 5.00.

The modules model the views' code as written, not what a user can reach in
the shipped application:

- the store never defines `drivers`, so `drivers.find` at
  views/DriverApp.tsx:9 throws on every render, and the driver view's
  buttons can never be pressed;
- `drivers.filter` at views/AdminDashboard.tsx:18 throws in the same way;
- the router (App.tsx:16-28) shows neither the admin dashboard nor
  `RestaurantDashboard`. Only the customer view and
  `RestaurantAdminDashboard` run as shipped.
- the customer view only ever sets the selected modifiers to `[]`
  (views/CustomerApp.tsx:12, :34), and its customisation dialog offers
  variations only, so every line a user adds has no modifiers. The pricing
  lemmas about modifiers (`ModifierTotalAppend`,
  `AddModifierRaisesLinePrice`, `ModifierTotalNonNegative`) describe the
  line-price formula at views/CustomerApp.tsx:22, which no user input
  reaches with a non-empty list.

Files: `types.dfy` (entities), `seqs.dfy` (`filter`, `find`, filter by
index), `store.dfy`, `customer_app.dfy`, `driver_app.dfy`,
`restaurant_admin_dashboard.dfy`, `restaurant_dashboard.dfy`,
`admin_dashboard.dfy`, `scenarios.dfy` (worked examples over the demo catalog).

## Model

| member | source | states |
|---|---|---|
| Store.Init | store.ts:21-26 | The store starts with nobody logged in, no orders and an empty cart, holding the given catalog |
| Store.Login | store.ts:27-30 | An email in the user table makes the first user with that email current and changes nothing else; an unknown email leaves the state unchanged |
| Store.Logout | store.ts:31 | Logout clears the current user and the cart and leaves orders and catalog untouched |
| Store.AddToCart | store.ts:32 | The cart grows by one, earlier lines are kept in place, the new line is last, and nothing else changes |
| Store.RemoveFromCart | store.ts:33 | A valid index removes exactly that line and keeps the order of the others; any other index leaves the state unchanged; only the cart changes |
| Store.ClearCart | store.ts:34 | The cart becomes empty and nothing else changes |
| Store.PlaceOrder | store.ts:35-38 | The order becomes the head of the list, the old list is its tail, and the cart is emptied in the same update |
| Store.UpdateOrderStatus | store.ts:39-43 | Length and order of the list are kept. Every order with the id gets the status and "now". Its driver is overwritten only by a present, non-empty driver id. All other fields and all other orders are unchanged |
| Store.AddThenRemoveLast | store.ts:32-33 | Adding a line and then removing the last index restores the state |
| Store.UpdateUnknownIdIsNoop | store.ts:39-43 | An id no order carries leaves the state identical |
| Store.UpdateIdempotent | store.ts:39-43 | Repeating an update with the same arguments changes nothing further |
| Store.UpdateIgnoresCurrentStatus | store.ts:39-43 | The update has no guard. Two order lists that differ only in the current status of the targeted orders give the same result, so DELIVERED and CANCELLED orders are overwritten too |
| Store.UpdateKeepsFeesConsistent | store.ts:39-43 | A status update keeps totalFee = foodSubtotal + deliveryFee + serviceFee for every order |
| Seqs.FilterAppend | views/AdminDashboard.tsx:21-23 | Filtering a concatenation is the concatenation of the filtered parts, so filtering keeps the input's order |
| Seqs.FilterCount | views/AdminDashboard.tsx:21-23 | Each element occurs in the filtered list as often as in the input when it passes the test, and never otherwise, so the counted lengths count every matching copy |
| CustomerApp.CheckoutChargesTrayTotal | views/CustomerApp.tsx:51 | A placed order's totalFee is the total shown in the cart tray for that cart: the subtotal plus both fees |
| CustomerApp.ModifierTotalAppend | views/CustomerApp.tsx:22 | The modifier sum of two selections joined is the sum of their modifier sums |
| CustomerApp.AddModifierRaisesLinePrice | views/CustomerApp.tsx:22 | Choosing one more modifier raises the line price by exactly that modifier's price |
| CustomerApp.ModifierTotalNonNegative | views/CustomerApp.tsx:22 | Non-negative modifier prices give a non-negative modifier sum |
| CustomerApp.LinePriceAtLeastBase | views/CustomerApp.tsx:22 | With non-negative variation and modifier prices a line never costs less than the item's base price |
| CustomerApp.SubtotalAppend | views/CustomerApp.tsx:15 | The subtotal of two carts joined is the sum of their subtotals |
| CustomerApp.SubtotalDropAt | views/CustomerApp.tsx:15 | Taking line j out of a cart lowers the subtotal by exactly line j's price |
| CustomerApp.SubtotalOrderIndependent | views/CustomerApp.tsx:15 | Two carts holding the same lines in any order have the same subtotal |
| CustomerApp.RemoveLowersSubtotal | views/CustomerApp.tsx:15 | Removing line i lowers the subtotal by exactly line i's price |
| CustomerApp.HandleAddToCart | views/CustomerApp.tsx:20-35 | With no selected item nothing happens. Otherwise one line is appended with quantity 1, the item's id and name, and the chosen variation and modifiers. The subtotal grows by base + variation price (0 if none) + modifier prices |
| CustomerApp.HandlePlaceOrder | views/CustomerApp.tsx:37-57 | An empty cart places nothing. Otherwise a new order heads the list with the given id, status PENDING, no driver and the whole cart as items. It carries the selected restaurant's id and address (none and "" without one), the fixed drop-off address and the chosen payment method. Its customer is the current user's id, or "" when nobody is logged in. Its fees are the subtotal, 25.00 and 5.00, summing to the total, and both timestamps are "now". The cart is emptied |
| CustomerApp.CheckoutKeepsFeesConsistent | views/CustomerApp.tsx:48-51 | After checkout every order's total still equals the sum of its three fees |
| CustomerApp.CheckoutAfterLogoutPlacesNothing | views/CustomerApp.tsx:38 | After logout the cart is empty, so checkout leaves the state exactly as logout left it |
| CustomerApp.CheckoutAfterClearCartPlacesNothing | views/CustomerApp.tsx:38 | After the cart is cleared, checkout leaves the state exactly as clearing left it |
| CustomerApp.ClearCartZeroesSubtotal | views/CustomerApp.tsx:15-18 | A cleared cart has a zero subtotal and a total of just the two fees |
| DriverApp.AvailableOrders | views/DriverApp.tsx:11 | An order is offered to drivers iff it is READY_FOR_PICKUP, or PENDING with no (or an empty) restaurant id |
| DriverApp.MyActiveOrders | views/DriverApp.tsx:12 | An order is in the driver's list iff its driver id equals the current user's id and it is not DELIVERED; CANCELLED orders still qualify |
| DriverApp.HandleAccept | views/DriverApp.tsx:14-16 | Accept sets ACCEPTED and updatedAt = now on the matching orders and leaves their other fields unchanged. A logged-in user with a non-empty id becomes their driver; otherwise the driver is kept. Other orders are unchanged |
| DriverApp.NextStatus | views/DriverApp.tsx:18-22 | The button changes the status exactly for ACCEPTED, PICKED_UP and IN_TRANSIT, and each change moves one stage along the delivery leg |
| DriverApp.DeliveredIsFixedPoint | views/DriverApp.tsx:18-22 | Pressing the button any number of times on a DELIVERED order leaves it DELIVERED |
| DriverApp.AdvanceSplit | views/DriverApp.tsx:18-22 | j presses followed by k presses are the same as j + k presses |
| DriverApp.AcceptedDeliveredInThree | views/DriverApp.tsx:18-22 | From ACCEPTED, k presses reach DELIVERED iff k ≥ 3 |
| DriverApp.HandleStatusUpdate | views/DriverApp.tsx:18-25 | The matching orders get the next status of the status shown and updatedAt = now; their other fields are unchanged. No order's driver changes because no driver is passed. Other orders are unchanged |
| DriverApp.AcceptMovesToMyActive | views/DriverApp.tsx:11-16 | After a logged-in driver accepts an order, it leaves the available list and appears in that driver's active list |
| DriverApp.CancelledStaysActive | views/DriverApp.tsx:12 | A CANCELLED order assigned to the driver is still listed as active |
| RestaurantAdminDashboard.MyRest | views/RestaurantAdminDashboard.tsx:12 | The result is the first restaurant owned by the current user, or none when no restaurant is theirs; with nobody logged in it is none |
| RestaurantAdminDashboard.MyOrders | views/RestaurantAdminDashboard.tsx:14 | The restaurant's orders are those carrying its id. With no restaurant they are exactly the orders without a restaurant id |
| RestaurantAdminDashboard.PendingOrders | views/RestaurantAdminDashboard.tsx:15 | The pending queue holds exactly the PENDING orders of the list |
| RestaurantAdminDashboard.ActiveOrders | views/RestaurantAdminDashboard.tsx:16 | The active queue holds exactly the RESTAURANT_ACCEPTED, PREPARING and READY_FOR_PICKUP orders, and none of them is in the pending queue |
| RestaurantAdminDashboard.ButtonStatus | views/RestaurantAdminDashboard.tsx:77-104 | Decline, Accept, Prep and Ready issue CANCELLED, RESTAURANT_ACCEPTED, PREPARING and READY_FOR_PICKUP, each button a distinct status |
| RestaurantAdminDashboard.PressButton | views/RestaurantAdminDashboard.tsx:77-104 | A button press changes only the status and updatedAt of the matching orders, never the driver, and leaves other orders unchanged |
| RestaurantAdminDashboard.ReadyCanGoBackToPreparing | views/RestaurantAdminDashboard.tsx:103-104 | A READY_FOR_PICKUP order of the restaurant is in the active queue, and Prep moves it back to PREPARING |
| RestaurantDashboard.MyRest | views/RestaurantDashboard.tsx:9 | The result is the first restaurant owned by the current user, or none |
| RestaurantDashboard.MyOrders | views/RestaurantDashboard.tsx:11 | The restaurant's orders are those whose restaurant id equals the restaurant's optional id |
| RestaurantDashboard.PendingOrders | views/RestaurantDashboard.tsx:12 | The pending queue holds exactly the PENDING orders |
| RestaurantDashboard.ActiveOrders | views/RestaurantDashboard.tsx:13 | The active queue holds exactly the RESTAURANT_ACCEPTED, PREPARING and READY_FOR_PICKUP orders |
| RestaurantDashboard.HandleUpdate | views/RestaurantDashboard.tsx:15-17 | The matching orders get only the new status and updatedAt; every other order is unchanged |
| RestaurantDashboard.FindSameAsAdmin | views/RestaurantDashboard.tsx:9 | The lookup finds the same restaurant as the admin dashboard's lookup |
| RestaurantDashboard.FilterSameAsAdmin | views/RestaurantDashboard.tsx:11-13 | The three order lists equal the admin dashboard's lists |
| RestaurantDashboard.DashboardsAgree | views/RestaurantDashboard.tsx:9-13 | Both dashboards find the same restaurant, select the same orders for it, and show the same pending and active lists drawn from those orders |
| RestaurantDashboard.ButtonsAgree | views/RestaurantDashboard.tsx:79-107 | Each button on this dashboard writes what the same button writes on the admin dashboard |
| AdminDashboard.TotalGmv | views/AdminDashboard.tsx:16 | With no orders GMV is the historical R125000 |
| AdminDashboard.LogoutKeepsGmv | store.ts:31 | Logout does not change GMV, since it leaves the order list untouched |
| AdminDashboard.SumTotalFeeAppend | views/AdminDashboard.tsx:16 | The fee sum of two order lists joined is the sum of their fee sums |
| AdminDashboard.PlaceOrderRaisesGmv | views/AdminDashboard.tsx:16 | Placing an order raises GMV by exactly that order's total |
| AdminDashboard.SameFeesSameSum | views/AdminDashboard.tsx:16 | Order lists with the same totals position by position have the same fee sum |
| AdminDashboard.UpdateKeepsGmv | views/AdminDashboard.tsx:16 | A status update never changes GMV |
| AdminDashboard.BucketsPartition | views/AdminDashboard.tsx:20-23 | The Delivered, Active and Cancelled counts add up to the number of orders |
| AdminDashboard.TotalTrips | views/AdminDashboard.tsx:20-24 | The total-trips figure is the number of orders plus 420 + 32 + 12 |
| Scenarios.LoginExample | constants.tsx:7-12 | Logging in with the Kota King admin's email makes user "2" current; an unknown email logs nobody in |
| Scenarios.KotaCheckoutExample | views/CustomerApp.tsx:15-29 | Full House Kota (45.00) with Double Cheese (+10.00) gives a 55.00 line. Checkout gives a PENDING order for rest-1 totalling 85.00, and the cart is emptied |
| Scenarios.KotaOrderReachesKitchen | views/RestaurantAdminDashboard.tsx:12-15 | The Kota King admin owns rest-1. A pending rest-1 order shows in its pending queue and is not offered to drivers |

## Left out

- Rendering, styling, charts and the hard-coded KPI figures of every view.
  The platform owner dashboard, the router, the login screen and the layout
  are also left out. They hold no order or cart logic beyond what is
  modelled here.
- The `drivers` field read by the driver and admin dashboards. The store
  never defines it, so those views throw on every render as shipped. The
  model does not model that crash: it models the views' handlers and
  filters as written. The driver rating and the active-driver count built
  from `drivers` are left out.
- Floating-point money. Every amount is integer cents. The 20% platform
  revenue (`totalGMV * 0.20`) is left out.
- Order id generation from `Math.random` and timestamps from the clock. Both
  the order id and "now" are parameters, so the model does not know that
  ids can collide. `UpdateOrderStatus` updates every order carrying the id,
  as the source does, and gives all of them the same "now". The source
  reads the clock once per matching order (store.ts:41), so orders sharing
  an id can get `updatedAt` values a few milliseconds apart.
- `CartItem.modifiers` and `Order.items` are optional in the type
  declarations. The only code that creates them always sets them, so they
  are plain sequences.
- The view-local selection state and its resets after add-to-cart and
  checkout (`setSelectedItem`, `setSelectedRest`, …). Their values are
  parameters of `HandleAddToCart` and `HandlePlaceOrder`.
- Non-integer indices passed to `removeFromCart`. The index is an `int`.
- Menu item availability, mandatory variations, and whether the chosen
  variation belongs to the item. The source checks none of these, and
  neither does the model.
- Concurrency and locking. The store's updates are synchronous, and the
  source has none.
- A status transition table and actor authorisation. The source has neither.
- CustomerApp.HandlePlaceOrder: gives `createdAt` and `updatedAt` the same
  "now". The source reads the clock twice (views/CustomerApp.tsx:52-53), so
  the two timestamps can differ by a few milliseconds.
