# QR restaurant menu: order bookkeeping in Dafny

This project models the order and cart bookkeeping of a restaurant ordering
application, in three parts:

- **The order server** (`server.js`), in its in-memory fallback mode. It keeps
  a module-level list of orders and a counter `nextOrderId` seeded at 1.
  - `POST /api/orders` validates `items` and `total`, takes the next id and
    appends a `pending` order.
  - `PATCH /api/orders/:orderId/status` checks the status against the five
    valid values and sets it on the first order with that id. It does not
    check the direction of the change.
  - `DELETE /api/orders/:orderId` removes that order with `findIndex` and
    `splice`.
  - `GET /api/orders` sorts the store in place, newest timestamp first, and
    returns it. The `loadOrders` snapshot sent on connection and on
    `requestOrders` (server.js:307, server.js:324) does the same sort and is
    modelled by the same method, `ListOrders`.
  - `GET /api/orders/status/:status` returns a sorted copy of the matching
    orders.
  - `GET /api/orders/:orderId` returns one order or 404.
  - Each successful change emits one Socket.IO event: `newOrder`,
    `orderUpdated` or `orderDeleted`. The model keeps these as an
    append-only event log.
- **The customer cart** (`components/js/script.js`). The `cart` object maps
  menu-item ids to quantities.
  - `addToCart` increments the quantity, but only for menu ids.
  - `removeFromCart` decrements and deletes the key at zero.
  - `clearCart` empties the cart.
  - `placeOrder` sums the item count and the total, refuses an empty cart,
    and converts the cart into the line items it sends.
  - Object keys keep insertion order, so the cart is a list of entries in
    that order, with a map view (`Cart.Contents`) for what the object holds.
- **The staff dashboard** (`components/js/staff-dashboard.js`). It reads an
  order list from localStorage.
  - `getNextStatus` advances pending → preparing → ready → completed.
  - `updateStats` counts orders per status.
  - The list is split into active and completed orders.
  - One order is advanced in place, and cleared orders are filtered out.

Modules: `Wrappers` (Option), `Search` (`findIndex`), `LineItems` (the
`{id, name, quantity, price}` items an order carries), `OrderServer`,
`Cart` and `StaffDashboard`. The three stateful globals are classes:
`OrderServer.OrderStore`, `Cart.CustomerCart` and
`StaffDashboard.OrderBoard`. Each method states its new state as a function
of the old one. The pure parts (validation, lookups, sort, filters, sums,
the status table) are functions with lemmas about them.

Notes on the code's behaviour:
- The server accepts any of the five statuses in any direction, so an order
  can go back from `completed` to `pending`.
- The dashboard's flow skips `accepted` and cannot move an `accepted` order
  on (`StaffDashboard.NoNextStatusIsFinal`).
- The dashboard reads its orders from localStorage, not from socket events.
  It matches orders by `id`; server-shaped records carry `orderId` and no
  `id`. The page calls `updateOrderStatus` and `deleteOrder` with
  `undefined` as well as with numbers:
  - the inline buttons render `${order.id}` of a record without `id` as
    `undefined`;
  - the second click handler passes `this.dataset.orderId`, which the button
    never sets.

  Since `undefined === undefined`, `updateOrderStatus(undefined)` advances
  the first record without `id`. `deleteOrder(undefined)` removes every
  record without `id`, active ones included
  (`StaffDashboard.DeleteUndefinedClearsIdless`). The model writes the
  argument as `Option<int>`, with `None` for `undefined`.
- Socket.IO sends the creation event as `newOrder`, the status change as
  `orderUpdated` and the deletion as `orderDeleted`.
- The server does not check that the total equals the sum of the item
  prices. The cart does compute it that way (`Cart.OrderItemsTotal`).

## Model

| member | source | states |
|---|---|---|
| `Search.FindIndex` | server.js:275 | the result is the first position whose element satisfies the predicate, or none when no element does |
| `OrderServer.ParseStatus` | server.js:216-217 | a status name is accepted exactly when it is one of the five valid values, and it yields the one status with that name |
| `OrderServer.ValidateCreate` | server.js:164-170 | a POST body passes exactly when items are present and non-empty and total is present and positive; missing or empty items are reported first, then a missing, zero or negative total |
| `OrderServer.IndexOfOrder` | server.js:237 | the position of the first order with the id, or none exactly when no order has it |
| `OrderServer.RemoveAt` | server.js:280 | `splice(index, 1)` drops that one position and keeps every other order in its relative order |
| `OrderServer.DeleteRemovesId` | server.js:275-280 | with distinct ids, deleting the found order leaves no order with that id and keeps ids distinct |
| `OrderServer.InsertByNewest` | server.js:111 | one insertion step of the sort adds exactly the one order to the multiset |
| `OrderServer.InsertKeepsNewestFirst` | server.js:111 | inserting into a newest-first list keeps it newest first |
| `OrderServer.SortByNewest` | server.js:111 | the sort by timestamp, descending, yields a permutation of its input in newest-first order |
| `OrderServer.InsertKeepsDistinct` | server.js:111 | an insertion step never makes two orders share an id |
| `OrderServer.SortKeepsDistinct` | server.js:111 | sorting the store in place keeps order ids distinct |
| `OrderServer.WithStatus` | server.js:127 | the filter keeps exactly the stored orders whose status name equals the requested string, each as often as it is stored |
| `OrderServer.OrderStore.constructor` | server.js:86-87 | the store starts with no orders, counter 1, no events and no issued ids |
| `OrderServer.OrderStore.GetNextOrderId` | server.js:90-100 | the fallback path returns the counter and post-increments it; the id is larger than every id issued before, so no id is reused |
| `OrderServer.OrderStore.CreateOrder` | server.js:160-200 | a rejected body gives 400 with store, counter and events unchanged; an accepted one gives 201, appends exactly one `pending` order with the given items and total and the fresh id, and logs one `newOrder` event |
| `OrderServer.OrderStore.GetOrder` | server.js:146-151 | 404 exactly when no stored order has the id; otherwise 200 with the first order with that id |
| `OrderServer.OrderStore.UpdateStatus` | server.js:210-249 | an invalid status gives 400 with nothing changed (checked before lookup); an absent id gives 404 with nothing changed; otherwise 200, exactly the first matching order gets the status and a new `updatedAt`, the others are unchanged, and one `orderUpdated` event is logged |
| `OrderServer.OrderStore.DeleteOrder` | server.js:259-286 | an absent id gives 404 with nothing changed and no event; otherwise 200, exactly the first matching order is removed, the rest keep their order, no order with that id remains, and one `orderDeleted` event is logged |
| `OrderServer.OrderStore.ListOrders` | server.js:105-112 | the store is replaced by its newest-first sort, a permutation of it with no order added or lost, and returned; counter and events are unchanged |
| `OrderServer.OrderStore.OrdersByStatus` | server.js:120-129 | the reply is the newest-first sort of the status filter: every stored order with that status name exactly as often as it is stored, and no other |
| `Cart.FindMenuItem` | components/js/script.js:253 | the first menu item with the id, or none exactly when no menu item has it |
| `Cart.MenuPricesPositive` | components/js/script.js:38-153 | every dish on the menu has a positive price |
| `Cart.Quantity` | components/js/script.js:255 | the quantity `cart[itemId]` reads, or 0: 0 for an item not in the cart, otherwise the quantity of its one entry |
| `Cart.ContentsKeys` | components/js/script.js:255 | the map view holds an id exactly when some cart entry has it |
| `Cart.ContentsAt` | components/js/script.js:255 | with distinct keys, the map view gives each entry's own quantity |
| `Cart.ContentsUpdate` | components/js/script.js:263 | overwriting one entry's quantity updates exactly that key of the map view |
| `Cart.ContentsRemove` | components/js/script.js:265 | deleting an entry removes exactly its key from the map view |
| `Cart.Added` | components/js/script.js:252-259 | an id not on the menu leaves the cart unchanged; a menu id's quantity goes up by exactly one (from 0 when absent) and no other key changes; keys stay distinct |
| `Cart.Removed` | components/js/script.js:261-270 | an absent or zero item leaves the cart unchanged; otherwise its quantity goes down by one and the key is deleted when it reaches 0; no other key changes |
| `Cart.AddedWellFormed` | components/js/script.js:252-255 | adding keeps every key distinct, on the menu and with quantity at least 1 |
| `Cart.RemovedWellFormed` | components/js/script.js:261-266 | removing keeps every key distinct, on the menu and with quantity at least 1 |
| `Cart.RemoveUndoesAdd` | components/js/script.js:255-266 | adding a menu item and then removing it gives back the original cart, key order included |
| `Cart.OrderItems` | components/js/script.js:438-446 | one line item per cart key, in key order, carrying the menu's id, name and price and the cart's quantity |
| `Cart.OrderItemsTotal` | components/js/script.js:426-446 | the price × quantity sum over the converted line items equals the cart total `placeOrder` computes |
| `Cart.ItemCount` | components/js/script.js:425 | the sum of the quantities; when every quantity is at least 1 it is at least the number of keys |
| `Cart.CartTotal` | components/js/script.js:426-429 | the price × quantity sum; with positive prices and quantities it is positive exactly when the cart has a key |
| `Cart.PrepareOrder` | components/js/script.js:424-446 | refused exactly when the item count is 0 or the total is not positive; otherwise it sends the converted items and a positive total equal to their sum |
| `Cart.RefusedOnlyWhenEmpty` | components/js/script.js:432-435 | `placeOrder` refuses a well-formed cart exactly when it is empty |
| `Cart.SubmittedOrderPassesValidation` | components/js/script.js:453-461 | every order the cart sends passes the server's creation checks |
| `Cart.DisplayedEntries` | components/js/script.js:294-298 | the cart view keeps exactly the entries whose quantity is positive, each as often as it occurs |
| `Cart.DisplayShowsWholeCart` | components/js/script.js:294-298 | in a well-formed cart every quantity is positive, so the view keeps every entry in order and the displayed cart is the whole cart |
| `Cart.CustomerCart.constructor` | components/js/script.js:157 | the cart starts empty over the menu `menuItems` |
| `Cart.CustomerCart.AddToCart` | components/js/script.js:252-259 | the cart becomes `Added` of the old cart and stays well formed |
| `Cart.CustomerCart.RemoveFromCart` | components/js/script.js:261-270 | the cart becomes `Removed` of the old cart and stays well formed |
| `Cart.CustomerCart.ClearCart` | components/js/script.js:272-277 | the cart is empty afterwards: no entries and an empty map view |
| `Cart.CustomerCart.PlaceOrder` | components/js/script.js:424-446 | refuses exactly an empty cart; otherwise sends the converted items with a positive total equal to their price sum |
| `StaffDashboard.NextStatus` | components/js/staff-dashboard.js:124-131 | pending→preparing, preparing→ready, ready→completed, and null for every other status, `completed` and `accepted` included (both directions of each) |
| `StaffDashboard.Advance` | components/js/staff-dashboard.js:138-140 | one "Mark as" click: the status changes exactly when the flow has a next one |
| `StaffDashboard.AdvanceTimes` | components/js/staff-dashboard.js:138-140 | after three or more clicks every status has settled on one the flow does not move |
| `StaffDashboard.NoNextStatusIsFinal` | components/js/staff-dashboard.js:124-131 | a status with no next status never changes under any number of advances: `completed` is final, and an `accepted` order (a status only the server sets) is stuck |
| `StaffDashboard.PendingCompletesInThreeSteps` | components/js/staff-dashboard.js:124-140 | from pending, n advances reach completed exactly when n ≥ 3 |
| `StaffDashboard.CountIn` | components/js/staff-dashboard.js:39-41 | a status count never exceeds the number of orders |
| `StaffDashboard.UpdateStats` | components/js/staff-dashboard.js:37-41 | total is the list length; the pending, preparing-or-ready and completed figures add up to the number of orders with one of those four statuses, at most the total |
| `StaffDashboard.CountSplit` | components/js/staff-dashboard.js:39-41 | the three figures count disjoint status groups whose union is the four counted statuses |
| `StaffDashboard.CountMissesOutside` | components/js/staff-dashboard.js:39-41 | an order whose status is outside the counted set makes the count smaller than the list |
| `StaffDashboard.StatsMissUncounted` | components/js/staff-dashboard.js:38-41 | when some order is `accepted` (or any uncounted status), the three figures add up to less than the total |
| `StaffDashboard.ActiveOrders` | components/js/staff-dashboard.js:51 | exactly the orders whose status is not `completed` |
| `StaffDashboard.CompletedOrders` | components/js/staff-dashboard.js:70 | exactly the orders whose status is `completed` |
| `StaffDashboard.ActiveAndCompletedPartition` | components/js/staff-dashboard.js:51-70 | the two lists partition the orders as a multiset, their lengths add up to the total, and the completed list is as long as the completed figure |
| `StaffDashboard.IndexOfDashOrder` | components/js/staff-dashboard.js:135 | the first position whose `id` equals the argument (for `undefined`, the first record without `id`), or none exactly when no record matches |
| `StaffDashboard.Advanced` | components/js/staff-dashboard.js:133-145 | only the first record whose `id` equals the argument (a record without `id` for `undefined`) changes, to the next status of its old one; no match, or a status with no next one, leaves the list unchanged |
| `StaffDashboard.Without` | components/js/staff-dashboard.js:150 | exactly the records whose `id` differs from the argument, each as often as it occurs |
| `StaffDashboard.WithoutKeepsOrder` | components/js/staff-dashboard.js:150 | the remaining orders keep their original relative order, and deleting an id no order has changes nothing |
| `StaffDashboard.DeleteUndefinedClearsIdless` | components/js/staff-dashboard.js:147-151 | `deleteOrder(undefined)` removes every record without `id`, active ones included, keeps every record with one, and shortens the list whenever such a record exists |
| `StaffDashboard.OrderBoard.constructor` | components/js/staff-dashboard.js:30 | the board holds the order list read from localStorage |
| `StaffDashboard.OrderBoard.LoadOrders` | components/js/staff-dashboard.js:29-35 | the figures are `updateStats` of the stored list and the two lists are its active and completed filters; these partition the stored orders, and the completed figure is the completed list's length |
| `StaffDashboard.OrderBoard.UpdateOrderStatus` | components/js/staff-dashboard.js:133-145 | the stored list becomes `Advanced` of the old list, for a numeric id or for `undefined` |
| `StaffDashboard.OrderBoard.DeleteOrder` | components/js/staff-dashboard.js:147-154 | the stored list becomes the old list without the records whose `id` equals the argument |

## Left out

- The MongoDB branch of every handler, the schema and its queries
  (server.js:92-94, 108, 123-125, 140-145, 184-191, 221-235, 263-273). These
  are calls into a database whose behaviour is not visible here. The
  read-the-maximum-then-add-one id race in that branch is a concurrency
  concern.
- Socket.IO transport, connection and disconnection handling and delivery
  (server.js:22-28, 297-330). Only the events emitted are recorded, as a log.
  Who receives them is not modelled.
- Express routing, CORS, JSON parsing, server startup and shutdown, console
  logging, and the 500 replies from `catch` blocks. `parseInt` of URL
  parameters is not modelled either: ids are taken as integers.
- Request bodies whose `items` is not a list or whose `total` is not a
  number. `items` and `total` are modelled as optional integer values.
  JavaScript's truthiness checks for other types (a string total, for one)
  are not modelled.
- Dates: the three `new Date()` calls of one request are one integer clock
  reading passed in as `now`. The Date-to-number conversion in the
  comparator is not modelled.
- JavaScript numbers: ids, quantities, prices and totals are unbounded
  integers. Floating point, `toFixed` formatting and the 2^53 limit are not
  modelled. The menu's prices are whole numbers.
- Object identity: an order is a value, so `order.status = status` on the
  object found by `find` becomes replacing that list position. The values
  logged as events are the order as it was when emitted.
- All DOM rendering, HTML templates, toasts, timers, modals, keyboard
  shortcuts and animations in script.js and staff-dashboard.js. The `fetch`
  in `placeOrder` and its reply, the later `clearCart` on success, and
  localStorage JSON parsing, writing and polling are not modelled. The
  dashboard's list is held directly.
- The `confirm()` dialog in `deleteOrder`: only the confirmed case is
  modelled.
- One click on an update button runs two handlers in turn: the inline
  `updateOrderStatus(${order.id})`, then the attached handler's
  `updateOrderStatus(undefined)`. The model has each call as its own
  `StaffDashboard.OrderBoard.UpdateOrderStatus`, but does not have the pair
  as one operation.
- Record ids that are neither numbers nor absent, such as a string `id`,
  which the inline handler would render as a bare identifier.
- The `message` texts of the JSON error replies. A 400 reply carries its
  reason as a `Rejection` value.
- Inherited object properties: `statusFlow[currentStatus]` and
  `cart[itemId]` look up plain objects, so a key such as `"toString"` would
  find a property of `Object.prototype`. The model treats every key that
  the object does not set as absent.
- script.js defines `clearCart` twice with the same body. The later
  definition is the one in effect, and it is the one modelled.
- components/js/staff-login.js, components/js/config.js and the staff-login
  stubs in script.js (`handleStaffLogin`, `showStaffDashboard`). These are a
  hardcoded credential check and environment configuration, not order logic.
- `Cart.Added`: requires distinct keys. A JavaScript object always has
  distinct keys, so the precondition excludes no real cart.
- `Cart.Removed`: requires distinct keys, for the same reason as
  `Cart.Added`.
- `StaffDashboard.DashOrder`: omits `items`, which the dashboard only
  renders.
