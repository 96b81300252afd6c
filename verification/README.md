# Grocery delivery: order lifecycle model

This project models the order lifecycle of a small grocery-delivery web app.

- Customers post shopping lists as orders.
- Available shoppers see the pending orders, accept one, buy the items (editing prices and ticking items off), and move the order through shopping, delivering and completed.
- Customers follow their orders live, pay, and rate their shopper.

The model covers these parts of the app:

- **Schema** (`schema.dfy`):
  - the status and role enums;
  - the order-item validator;
  - the records and their column defaults;
  - which fields each insert schema takes from a request body.
- **In-memory store** (`storage.dfy`, class `Storage.MemStorage`):
  - three maps keyed by integer id and three id counters, updated in place;
  - the three order queries;
  - the whole-record updates;
  - review creation, which recomputes the reviewee's rating as the exact mean of every rating received.
- **Live-update registry** (`clients.dfy`, class `Clients.ClientRegistry`):
  - the process-wide map from user id to connection, with its connect, close and error handlers;
  - `notifyUser`, which writes into an outbox in place of the socket.
- **HTTP handlers** (`routes.dfy`):
  - the checks each handler makes, in order: 401, then role 403, then availability or ownership 403;
  - the store call each handler makes;
  - which handlers push an ORDER_UPDATED message to the order's customer;
  - the invariants the handlers keep over the stored orders (`ShopperAssigned`, `Evolves`).
- **Progress bar** (`progress.dfy`): the six stages, the stage index, the fill percentage, and the active and current markers.
- **Shopper dashboard** (`dashboard.dfy`):
  - the next-status helper;
  - the advance button: whether it shows, its caption, and what a click sends;
  - the price and purchased edits, each a copy of the item list with one entry replaced.
- **Live cache merge** (`live_updates.dfy`): how the browser's cached customer order list absorbs an ORDER_UPDATED message.
- **Customer orders page** (`customer_orders.dfy`):
  - the blank check and the newline split and filter of the shopping list;
  - the form reset;
  - the status icon;
  - the rating buttons.

Things to know when reading the model:

- The server does not enforce forward-only status transitions.
  - `MemStorage.UpdateOrderStatus` writes whatever status it is given.
  - The status handler passes the request body's string through `ParseStatus`, which keeps any string outside the enum as `Status.Other`.
  - `MemStorage.AssignShopper` sets the shopper and "accepted" unconditionally.
  - The forward order exists only in the dashboard's `NextStatus`, which proposes exactly the next stage on the progress bar.
- What keeps every non-pending stored order assigned to a shopper is the handlers' ownership checks (`Routes.ShopperAssigned`), not the store.
- A JavaScript `Map` lists its values in insertion order. The store inserts only under fresh ids from counters that start at 1 and only grow, and never deletes. So insertion order is ascending id order, and the queries walk ids `1 .. counter-1` (`MemStorage.Valid`).
- The JavaScript comparisons `status === "…"` compare strings. The model matches on `Status` values instead, which is the same for canonical statuses (`Schema.StatusNameInjective`). `ParseStatus` produces only canonical statuses.

## Model

| member | source | states |
|---|---|---|
| Schema.ParseStatus | shared/schema.js:21-23 | reading a status string keeps the string (`StatusName(s) == name`); the result lies in the enum exactly when the name is one of the six values |
| Schema.StatusNameRoundTrip | shared/schema.js:21-23 | a canonical status written as its string and read back is the same status |
| Schema.StatusNameInjective | shared/schema.js:21-23 | two canonical statuses have the same string exactly when they are equal |
| Schema.StatusEnumHasSixValues | shared/schema.js:21-23 | the enum has exactly six distinct names, and a name is in it exactly when parsing it gives an enum value |
| Schema.ParseRole | shared/schema.js:11 | a role is exactly "customer" or "shopper" |
| Schema.IsValidItem | shared/schema.js:41-46 | an item passes the item validator exactly when its price is at least 0 and its quantity is a whole number at least 1 |
| Schema.ItemValidatorBounds | shared/schema.js:41-46 | the item validator rejects negative prices and fractional quantities, and admits price 0 with quantity 1; a valid quantity is at least 1 |
| Schema.NewUserRow | shared/schema.js:14-15 | a new user row takes the insert's columns with the column defaults: not available, rating 5.0 |
| Schema.NewOrderRow | shared/schema.js:23-29 | a new order row takes the insert's items and notes with the column defaults: pending, no shopper, total 0, service fee 5.00, not paid |
| Schema.ParseInsertUser | shared/schema.js:47-53 | the user insert succeeds exactly when username, password, name, phone and a valid role are present, and copies exactly those |
| Schema.InsertUserIgnoresOtherFields | shared/schema.js:47-53 | id, availability and rating in a body never affect the user insert |
| Schema.ParseInsertOrder | shared/schema.js:54-61 | the order insert succeeds exactly when `items` is present and every item is valid, and copies items and notes |
| Schema.InsertOrderIgnoresOtherFields | shared/schema.js:54-61 | id, owner, shopper, status, total, fee and paid flag in a body never affect the order insert |
| Schema.ParseInsertReview | shared/schema.js:62-65 | the review insert succeeds exactly when `rating` is present, and copies rating and comment |
| Schema.InsertReviewIgnoresOtherFields | shared/schema.js:62-65 | id, order, reviewer and reviewee in a body never affect the review insert |
| Storage.Select | server/storage.ts:102-118 | an order is selected exactly when it is in the input and matches the query; ascending ids stay ascending |
| Storage.ReviewsTo | server/storage.ts:168-172 | a review is selected exactly when it is in the input and names the given reviewee; ascending review ids in the input stay ascending in the output; never longer than the input |
| Storage.AscendingHead | server/storage.ts:168-172 | in a list with strictly ascending ids the head precedes every later review, the tail is the list without its head, and the tail stays ascending |
| Storage.AscendingReviewsDeterminedByMembers | server/storage.ts:168-172 | two review lists with strictly ascending ids and the same members are equal, so order and multiplicity are fixed by membership |
| Storage.SumRatings | server/storage.ts:156 | the `reduce` that sums the ratings from 0, in list order |
| Storage.MeanRating | server/storage.ts:157 | the sum of the ratings divided by their number, for a non-empty list |
| Storage.SumRatingsBounds | server/storage.ts:156 | the sum of n ratings in [lo, hi] lies in [lo·n, hi·n] |
| Storage.MeanRatingBounds | server/storage.ts:156-157 | the mean of ratings in [lo, hi] lies in [lo, hi] |
| Storage.MeanOfThreeRatings | server/storage.ts:155-157 | ratings 5, 3 and 4 give the mean 4.0 exactly |
| Storage.MemStorage.OrderListSpec | server/storage.ts:102-118 | the insertion-order listing of orders holds exactly the stored orders, in ascending id order |
| Storage.MemStorage.ReviewListSpec | server/storage.ts:168-172 | the insertion-order listing of reviews holds exactly the stored reviews, with strictly ascending ids (no review twice) |
| Storage.MemStorage.ReceivedReviewsCharacterised | server/storage.ts:154-157 | any ascending list holding exactly the stored reviews of a reviewee is the filtered listing itself, so the mean computed over it is determined |
| Storage.MemStorage.constructor | server/storage.ts:44-50 | a new store is empty with all three counters at 1 |
| Storage.MemStorage.GetUser | server/storage.ts:56-58 | a user is found exactly when its id has been issued, and the found record carries that id |
| Storage.MemStorage.GetUserByUsername | server/storage.ts:60-64 | returns the first stored user with that username in insertion order, or none when no user has it |
| Storage.MemStorage.CreateUser | server/storage.ts:66-71 | the new user gets the current counter as a fresh id, larger than every stored id, with rating 5.0 and not available; only the users map and its counter change |
| Storage.MemStorage.UpdateUserAvailability | server/storage.ts:73-80 | fails with "User not found" and changes nothing for an unknown id; otherwise changes only that user's availability |
| Storage.MemStorage.CreateOrder | server/storage.ts:82-96 | the new order gets a fresh id, larger than every stored id, and is pending, unassigned, with total 0, items defaulting to [] and the given notes; only the orders map and its counter change |
| Storage.MemStorage.GetOrder | server/storage.ts:98-100 | an order is found exactly when its id has been issued, and the found record carries that id |
| Storage.MemStorage.GetOrdersByCustomer | server/storage.ts:102-106 | returns exactly the stored orders with that customer id, in ascending id order |
| Storage.MemStorage.GetOrdersByShopper | server/storage.ts:108-112 | returns exactly the stored orders assigned to that shopper, in ascending id order |
| Storage.MemStorage.GetPendingOrders | server/storage.ts:114-118 | returns exactly the stored pending orders, in ascending id order |
| Storage.MemStorage.UpdateOrderStatus | server/storage.ts:120-127 | fails with "Order not found" and changes nothing for an unknown id; otherwise writes any status into that order, with no transition check and nothing else changed |
| Storage.MemStorage.AssignShopper | server/storage.ts:129-136 | fails with "Order not found" for an unknown id; otherwise sets shopper and "accepted" whatever the order's status or current shopper, with nothing else changed |
| Storage.MemStorage.GetReviewsByUser | server/storage.ts:168-172 | returns exactly the stored reviews naming that reviewee, in insertion order, with strictly ascending ids |
| Storage.MemStorage.StoreReview | server/storage.ts:143-152 | the review goes under a fresh id above every stored one, the counter moves on by one, and the review is then among those its reviewee received |
| Storage.MemStorage.AverageRating | server/storage.ts:155-157 | the sum of the ratings the reviewee received divided by their number, i.e. their mean |
| Storage.MemStorage.UpdateRating | server/storage.ts:154-163 | a stored reviewee's rating becomes the mean of every stored rating naming them, nothing else about users changes, and an unknown reviewee changes nothing |
| Storage.MemStorage.CreateReview | server/storage.ts:138-166 | stores the review under a fresh id; the reviewee, if stored, gets as rating the mean of every stored rating naming them (never a division by zero, since the new review counts); otherwise users are unchanged |
| Storage.CreatedOrderMatchesColumnDefaults | server/storage.ts:84-93 | a created order agrees with the table's new row (pending, items, total 0) except for the service fee and the paid flag, which come from the request as they stand where the table would default them to 5.00 and false |
| Storage.CreatedUserMatchesColumnDefaults | server/storage.ts:68 | a created user is exactly the table's new row: rating 5.0, not available |
| Clients.OrderUpdated | server/routes.ts:120-123 | the pushed message has type ORDER_UPDATED and carries the order |
| Clients.ClientRegistry.constructor | server/routes.ts:9 | the registry starts empty |
| Clients.ClientRegistry.Reachable | server/routes.ts:43-44 | a send goes out exactly when the user has an entry whose socket is OPEN |
| Clients.ClientRegistry.DeliveriesTo | server/routes.ts:43-45 | one notification writes at most one message, and exactly one when the user has an entry whose socket is OPEN, to that socket |
| Clients.ClientRegistry.OnConnection | server/routes.ts:17-24 | a connection is registered exactly when the session's user id is truthy, and then replaces any earlier entry for that user |
| Clients.ClientRegistry.OnClose | server/routes.ts:25-28 | a close removes the user's entry, whichever connection it holds |
| Clients.ClientRegistry.OnError | server/routes.ts:30-33 | an error removes the user's entry, whichever connection it holds |
| Clients.ClientRegistry.NotifyUser | server/routes.ts:41-51 | the outbox grows by exactly the deliveries `DeliveriesTo` gives; the registry is unchanged and nothing fails |
| Clients.StaleCloseDropsNewerConnection | server/routes.ts:21-28 | on a fresh registry, connecting on an older and then on an open newer socket and closing the older one leaves the user with no entry, so a notification reaches no one |
| Clients.ClientRegistry.OnCloseOwn | server/routes.ts:25-28 | corrected close: the entry goes only when it still holds the closing connection |
| Clients.CloseOwnKeepsNewerEntry | server/routes.ts:21-28 | with the ownership check, a stale close keeps the newer entry and a close of the current connection removes it |
| Clients.OwnCloseKeepsNewerConnection | server/routes.ts:21-28 | the same sequence through the corrected close handler keeps the newer socket registered, and a notification reaches it |
| Routes.Owns | server/routes.ts:138-190 | the ownership test of the status, items and pay handlers: the assigned shopper for the first two, the customer for pay |
| Routes.Gate | server/routes.ts:55-56 | 401 exactly when a handler needing login has no session; a wrong role gives 403; a handler proceeds exactly when logged in with the required role (and, for the pending list, available) or when it needs no login |
| Routes.GateRoles | server/routes.ts:54-239 | a customer-only handler proceeds only for a customer and a shopper-only one only for a shopper; review posting needs only a login; review listing needs nothing |
| Routes.HandleCreateOrder | server/routes.ts:54-68 | rejected requests leave the store unchanged; otherwise one order is added, owned by the caller, pending, unassigned and at total 0 whatever the body says, with the body's service fee and paid flag as they stand; the handler invariants are kept |
| Routes.HandleCustomerOrders | server/routes.ts:70-81 | after the checks, answers exactly the caller's own stored orders |
| Routes.HandleShopperOrders | server/routes.ts:83-94 | after the checks, answers exactly the stored orders assigned to the caller |
| Routes.HandlePendingOrders | server/routes.ts:96-108 | an unavailable shopper gets 403; otherwise, after the checks, exactly the stored pending orders |
| Routes.HandleAccept | server/routes.ts:110-129 | any shopper takes any stored order (no status or prior-shopper check) and the customer is notified once; an unknown id answers 500 "Failed to accept order" with no change and no message |
| Routes.HandleStatus | server/routes.ts:131-156 | a missing or not-owned order answers 403 before any write; otherwise the body's status is written unchecked and the customer is notified once; the handler invariants are kept |
| Routes.HandleItems | server/routes.ts:158-181 | the same ownership 403; a failing item update answers 500 with no message; otherwise the updated order goes once to its customer |
| Routes.HandlePay | server/routes.ts:183-199 | a missing order or one the caller does not own answers 403; otherwise the payment outcome answers, a failure as 400 with its message; nothing is sent to the registry |
| Routes.HandleCreateReview | server/routes.ts:201-213 | any logged-in user may post a review; the reviewer is the caller whatever the body says; the review counter moves on by one; a stored reviewee's rating becomes the mean of every rating it received, other users are unchanged; orders are untouched |
| Routes.HandleListReviews | server/routes.ts:215-223 | without any login, answers exactly the stored reviews naming that user, with strictly ascending ids |
| Routes.HandleAvailability | server/routes.ts:225-239 | after the checks, only the caller's availability changes; an unknown caller answers 500 with no change |
| OrderProgress.StagesFollowEnum | client/src/components/order-progress.tsx:5-12 | the six stages spell the status enum in its order |
| OrderProgress.FindStage | client/src/components/order-progress.tsx:17 | the first stage whose status matches, or -1 exactly when none matches |
| OrderProgress.StageIndex | client/src/components/order-progress.tsx:17 | the current stage index lies in -1 .. 5 |
| OrderProgress.StageIndexOf | client/src/components/order-progress.tsx:5-12 | pending sits at 0, accepted 1, shopping 2, delivering 3, completed 4, paid 5, each at a stage standing for it |
| OrderProgress.StagesAreEnum | client/src/components/order-progress.tsx:5-12 | every stage stands for an enum status, and that status's position is the stage's own |
| OrderProgress.StageIndexValues | client/src/components/order-progress.tsx:5-17 | each enum status is found at its own position, and exactly the statuses outside the enum give -1 |
| OrderProgress.Progress | client/src/components/order-progress.tsx:18 | the fill lies between 0 and 100, and is 0 exactly when the status has no stage |
| OrderProgress.ProgressAlongStages | client/src/components/order-progress.tsx:18 | paid fills the bar, an unknown status leaves it empty, and the fill grows strictly along the stages |
| OrderProgress.IsActive | client/src/components/order-progress.tsx:26 | a marker is active when it is at or before the current stage |
| OrderProgress.IsCurrent | client/src/components/order-progress.tsx:27 | a marker is current when it is the current stage |
| OrderProgress.StageViews | client/src/components/order-progress.tsx:24-27 | one marker per stage in order; the active markers form a prefix; the current marker is active; at most one is current |
| OrderProgress.OneCurrentStage | client/src/components/order-progress.tsx:26-27 | an enum status has its own stage as the one current marker; any other status has no current and no active marker |
| ShopperDashboard.NextStatus | client/src/pages/shopper/dashboard.tsx:125-136 | a next status exists exactly for accepted, shopping and delivering, and is never pending, accepted or paid |
| ShopperDashboard.NextStatusIsNextStage | client/src/pages/shopper/dashboard.tsx:125-136 | the proposed status is the very next stage on the progress bar |
| ShopperDashboard.ThreeStepsToCompleted | client/src/pages/shopper/dashboard.tsx:125-136 | from accepted, three advances reach completed and any further advance yields nothing |
| ShopperDashboard.AdvanceShown | client/src/pages/shopper/dashboard.tsx:318 | the advance button is rendered for every status but completed |
| ShopperDashboard.AdvanceLabel | client/src/pages/shopper/dashboard.tsx:334-338 | "Start Shopping" for accepted, "Start Delivery" for shopping, "Mark as Delivered" otherwise |
| ShopperDashboard.AdvanceClick | client/src/pages/shopper/dashboard.tsx:318-330 | a click sends a status exactly when the button is shown (not completed), no update is in flight and a next status exists, and then it sends that next status |
| ShopperDashboard.InertAdvanceButton | client/src/pages/shopper/dashboard.tsx:318-338 | a pending or paid order shows "Mark as Delivered" but a click sends nothing |
| ShopperDashboard.EditsFollowAdvanceButton | client/src/pages/shopper/dashboard.tsx:276-318 | the price and purchased inputs are disabled exactly when the advance button is hidden, i.e. only for a completed order; a paid order stays editable |
| ShopperDashboard.ItemEditsEnabled | client/src/pages/shopper/dashboard.tsx:276-293 | the price and purchased inputs are disabled exactly for a completed order |
| ShopperDashboard.PriceOrZero | client/src/pages/shopper/dashboard.tsx:268 | the parsed price, or 0 when parsing fails |
| ShopperDashboard.WithPrice | client/src/pages/shopper/dashboard.tsx:264-276 | the edited list has the same length; only the edited row changes, and in it only the price |
| ShopperDashboard.WithPurchased | client/src/pages/shopper/dashboard.tsx:281-293 | the edited list has the same length; only the edited row changes, and in it only the purchased flag |
| ShopperDashboard.EditsKeepItemsValid | client/src/pages/shopper/dashboard.tsx:264-293 | after a price edit a valid list stays valid exactly when the new price is not negative; a toggle keeps it valid |
| ShopperDashboard.EditsOverwrite | client/src/pages/shopper/dashboard.tsx:264-293 | a second price edit overrides the first; toggling twice restores the list |
| LiveUpdates.ReplaceById | client/src/hooks/use-websocket.tsx:27 | same length and the same id at every position |
| LiveUpdates.ReplaceByIdEntries | client/src/hooks/use-websocket.tsx:27 | entries with the pushed id become the pushed order; all others are unchanged |
| LiveUpdates.NotCachedNotAdded | client/src/hooks/use-websocket.tsx:27 | an order whose id is not cached leaves the list as it was |
| LiveUpdates.ReplaceByIdIdempotent | client/src/hooks/use-websocket.tsx:27 | applying the same update twice equals applying it once |
| LiveUpdates.NoStaleCopy | client/src/hooks/use-websocket.tsx:27 | afterwards no entry with the pushed id differs from the pushed order, and the pushed order is present exactly when it or its id was cached |
| LiveUpdates.UpdateCachedList | client/src/hooks/use-websocket.tsx:25-28 | no cached list gives the one-element list; otherwise the replacement by id |
| LiveUpdates.OnMessage | client/src/hooks/use-websocket.tsx:19-29 | only an ORDER_UPDATED message changes the cache, and only the customer order list entry |
| LiveUpdates.PushedOrderIsShown | client/src/hooks/use-websocket.tsx:22-28 | after the server's push for an order, the cached customer list shows it wherever it showed that id |
| CustomerOrders.SplitLines | client/src/pages/customer/orders.tsx:92 | splitting always gives at least one piece |
| CustomerOrders.SplitLinesRoundTrip | client/src/pages/customer/orders.tsx:92 | no piece contains a newline, and joining the pieces with newlines gives the text back |
| CustomerOrders.NonEmpty | client/src/pages/customer/orders.tsx:92 | a piece is kept exactly when it is a non-empty piece of the input; no more pieces than the input has |
| CustomerOrders.NonEmptyAppend | client/src/pages/customer/orders.tsx:92 | the filter laws: filtering a concatenation filters each part in order, and a single piece is kept exactly when it is not empty |
| CustomerOrders.NonEmptyKeepsAll | client/src/pages/customer/orders.tsx:92 | a list with no empty piece passes the filter unchanged |
| CustomerOrders.ConcatNonEmpty | client/src/pages/customer/orders.tsx:92 | dropping empty pieces keeps every character, in order |
| CustomerOrders.ConcatSplitLines | client/src/pages/customer/orders.tsx:92 | the pieces' characters are the text's characters without its newlines |
| CustomerOrders.ItemLines | client/src/pages/customer/orders.tsx:92 | the submitted lines: the newline-split pieces of the text with the empty ones dropped |
| CustomerOrders.ItemLinesKeepText | client/src/pages/customer/orders.tsx:92 | the submitted lines are the text's characters, newlines aside, in order; no line is empty or holds a newline; every non-empty piece is submitted |
| CustomerOrders.SplitLinesOfWord | client/src/pages/customer/orders.tsx:92 | a text without newlines splits into itself alone |
| CustomerOrders.SplitLinesAfterWord | client/src/pages/customer/orders.tsx:92 | a newline-free word followed by a newline splits off as the first piece |
| CustomerOrders.SplitLinesOfJoin | client/src/pages/customer/orders.tsx:92 | splitting undoes joining with newlines, for pieces without newlines |
| CustomerOrders.ItemLinesOnePerLine | client/src/pages/customer/orders.tsx:92 | a list typed one non-empty item per line is submitted as exactly those items, in order |
| CustomerOrders.WithoutNewlinesKeepsOthers | client/src/pages/customer/orders.tsx:92 | a text with a character other than a newline keeps something once newlines are removed |
| CustomerOrders.NotBlankHasItems | client/src/pages/customer/orders.tsx:82-92 | a list that is not blank yields at least one line |
| CustomerOrders.IsBlank | client/src/pages/customer/orders.tsx:82 | the list is blank when every character is one `trim` removes |
| CustomerOrders.HandleNewOrder | client/src/pages/customer/orders.tsx:81-95 | the error toast (and no request) exactly for a blank list; otherwise at least one line, the split-and-filtered text, with the notes as typed |
| CustomerOrders.AfterCreated | client/src/pages/customer/orders.tsx:42-46 | after a create the dialog is closed and both fields are empty, so submitting again would be refused as blank |
| CustomerOrders.StatusBadge | client/src/pages/customer/orders.tsx:97-111 | a badge exists exactly for pending, accepted, shopping, delivering and completed; paid and anything else get none |
| CustomerOrders.StatusBadgesDistinct | client/src/pages/customer/orders.tsx:97-111 | two statuses share a badge exactly when they are equal or both in {accepted, shopping} |
| CustomerOrders.RatingRequestAsWritten | client/src/pages/customer/orders.tsx:171-176 | the button posts the order, the order's shopper id as reviewee, the rating and an empty comment |
| CustomerOrders.RatingButtonsAsWrittenNameNoShopper | client/src/pages/customer/orders.tsx:164-176 | as written, whenever the buttons show the review names no shopper, and a completed order with a shopper never shows them |
| CustomerOrders.RatingRequestFor | client/src/pages/customer/orders.tsx:164-176 | corrected: when the buttons show, each request names the order's shopper |
| CustomerOrders.RatingButtonsReachShopper | client/src/pages/customer/orders.tsx:164-176 | corrected: a completed order with a shopper shows the buttons, and each of the five ratings 1–5 goes to that shopper |

## Left out

- JavaScript numbers are modelled as unbounded `int` and exact `real`: no double rounding in the mean rating, no 53-bit limit on ids. `parseInt` of the route id is the id itself (a non-numeric id simply matches no order).
- `parseFloat` is an optional parsed value (`None` for NaN). A parsed 0 and the fallback 0 are the same value here.
- Sessions, `req.isAuthenticated()`, JSON serialisation, HTTP status transport and logging are left out. The logged-in user is an `Option<User>` parameter.
- The WebSocket server, the HTTP server and the browser's socket set-up, reconnection and clean-up are left out. A socket is an opaque handle with an OPEN flag, and a send is an outbox entry.
- Concurrency is left out: the async handlers can interleave at their awaits; the model runs each handler to completion.
- `storage.updateOrderItems` and `storage.processPayment` are called by the items and pay handlers but have no implementation in storage.ts. The model takes their outcome as a parameter and leaves the store unchanged for them. It invents no total recomputation or payment rule.
- The session store (`MemoryStore`) in the store's constructor is not part of this model; `createdAt` is an opaque integer timestamp passed in.
- Request bodies pass through the store with JavaScript spread, so extra body fields would land in the stored record. The model keeps only the record's own fields. JavaScript `undefined` and `null` are both `None`.
- The customer page sends the shopping list as an array of strings, while the order type declares items as objects. The model types the server's items as `OrderItem` and the page's submission as strings, and does not relate the two.
- The 500 answers of the create, list, status, review and list-reviews handlers are left out. The store operations they call cannot fail on the inputs those handlers pass.
- Routes.HandleItems: does not model what the unseen item update writes to the store, so its contract says nothing about the store.
- Routes.HandlePay: does not model what the unseen payment operation writes to the store, so its contract says nothing about the store.
- The review star highlight (`rating <= (order.rating || 0)`) reads a rating field that orders do not have; it is left out.
- Routes.HandleStatus: takes the body's status as a string; a body without `status` would write `undefined` into the order, which the model cannot express.
- Routes.HandleCreateReview: types the body's `toId` and `rating` as integers; the handler does not validate them, so a `null` or absent `toId` (as the order screen sends) stores a review that matches no user and updates no rating, and an absent `rating` makes the mean `NaN`; neither case is modelled.
- Routes.HandleAvailability: types the body's `isAvailable` as a boolean; a body without it would store `undefined` as the shopper's availability, which the model cannot express.
- OrderProgress.FindStage: compares statuses rather than their strings. The two agree for every status the schema produces (`Schema.StatusNameInjective`); an `Other` value spelling an enum name is never produced, so the model does not follow it.
- The pages' rendering, toasts' wording and query invalidation are left out. Only the decisions they make are modelled.

## Findings

| source | as written | input that shows it | evidently intended | confidence | as-written member | corrected member |
|---|---|---|---|---|---|---|
| client/src/pages/customer/orders.tsx:164-176 | rating buttons show when `status === "completed" && !order.shopperId`, and post `toId: order.shopperId!` | a completed order with shopper 7 shows no buttons; a completed order with no shopper posts a review with `toId` null | show the buttons when the completed order has a shopper, and rate that shopper | high (not executed) | CustomerOrders.RatingButtonsAsWrittenNameNoShopper | CustomerOrders.RatingButtonsReachShopper |
| server/routes.ts:21-28 | the close handler deletes `clients[userId]` whichever connection it holds | user 3 connects (socket A), connects again (socket B replaces A), then A closes: user 3 has no entry and B receives no updates | delete the entry only when it still holds the closing connection | medium (not executed) | Clients.StaleCloseDropsNewerConnection | Clients.OwnCloseKeepsNewerConnection |
