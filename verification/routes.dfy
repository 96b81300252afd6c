/**
 * The HTTP handlers for orders, reviews and shopper availability: the
 * early-return checks each one makes (401 when not logged in, then 403 for
 * the wrong role, then 403 for an unavailable shopper or for an order the
 * caller does not own), the store call it makes, and the live update it
 * pushes to the order's customer.
 *
 * The logged-in user (`req.user`) is an `Option<User>`; the handlers use the
 * store object and the registry object that the module shares between
 * requests.
 */
module Routes {
  import opened Wrappers
  import opened Schema
  import opened Storage
  import opened Clients

  /** The handlers, by method and path. */
  datatype Endpoint =
    | PostOrders          // POST /api/orders
    | GetCustomerOrders   // GET  /api/orders/customer
    | GetShopperOrders    // GET  /api/orders/shopper
    | GetPendingOrders    // GET  /api/orders/pending
    | PostAccept          // POST /api/orders/:id/accept
    | PostStatus          // POST /api/orders/:id/status
    | PostItems           // POST /api/orders/:id/items
    | PostPay             // POST /api/orders/:id/pay
    | PostReviews         // POST /api/reviews
    | GetReviews          // GET  /api/reviews/:userId
    | PostAvailability    // POST /api/shoppers/availability

  /** Whether a handler goes on, or answers at once with a bare status code. */
  datatype Decision = Proceed | Reject(code: int)

  /** What a handler answers. */
  datatype Reply =
    | Code(status: int)
    | Failed(status: int, message: string)
    | OrderJson(order: Order)
    | OrdersJson(orders: seq<Order>)
    | UserJson(user: User)
    | ReviewJson(review: Review)
    | ReviewsJson(reviews: seq<Review>)

  /** Every handler but the review listing starts with the login check. */
  predicate NeedsLogin(e: Endpoint) {
    e != GetReviews
  }

  /** The role a handler demands, if any. */
  function RequiredRole(e: Endpoint): Option<Role> {
    match e
    case PostOrders | GetCustomerOrders | PostPay => Some(Customer)
    case GetShopperOrders | GetPendingOrders | PostAccept | PostStatus | PostItems | PostAvailability => Some(Shopper)
    case PostReviews | GetReviews => None
  }

  /**
   * The checks every handler makes before touching the store, in the order
   * it makes them: login (401), role (403), and for the pending list the
   * shopper's availability (403).
   */
  function Gate(e: Endpoint, session: Option<User>): (d: Decision)
    ensures d.Reject? ==> d.code == 401 || d.code == 403
    ensures d == Reject(401) <==> NeedsLogin(e) && session.None?
    ensures NeedsLogin(e) && session.Some? && RequiredRole(e).Some? && session.value.role != RequiredRole(e).value
      ==> d == Reject(403)
    ensures d.Proceed? <==>
      || !NeedsLogin(e)
      || (&& session.Some?
          && (RequiredRole(e).Some? ==> session.value.role == RequiredRole(e).value)
          && (e == GetPendingOrders ==> session.value.isAvailable))
  {
    if !NeedsLogin(e) then Proceed
    else if session.None? then Reject(401)
    else if RequiredRole(e).Some? && session.value.role != RequiredRole(e).value then Reject(403)
    else if e == GetPendingOrders && !session.value.isAvailable then Reject(403)
    else Proceed
  }

  /** An order-changing handler proceeds past its role check only for a logged-in caller of the right role. */
  lemma GateRoles(session: Option<User>)
    ensures forall e :: Gate(e, session).Proceed? && RequiredRole(e) == Some(Customer) ==> session.Some? && session.value.role == Customer
    ensures forall e :: Gate(e, session).Proceed? && RequiredRole(e) == Some(Shopper) ==> session.Some? && session.value.role == Shopper
    ensures Gate(PostReviews, session).Proceed? <==> session.Some?
    ensures Gate(GetReviews, session) == Proceed
  {
  }

  /**
   * Whether the caller owns the order for the three handlers that look it up
   * first: the assigned shopper for status and items, the customer for pay.
   */
  predicate Owns(e: Endpoint, callerId: int, o: Order) {
    if e == PostPay then o.customerId == callerId else o.shopperId == Some(callerId)
  }

  // ---------------------------------------------------------------------
  // What the handlers keep true of the stored orders
  // ---------------------------------------------------------------------

  /**
   * Every order that has left "pending" has a shopper. The store does not
   * keep this by itself (its status update is unguarded); the handlers do.
   */
  ghost predicate ShopperAssigned(orders: map<int, Order>) {
    forall k :: k in orders && orders[k].status != Pending ==> orders[k].shopperId.Some?
  }

  /**
   * How the handlers may change the orders: none disappears, owner and
   * creation time never change, and a set shopper never goes back to null.
   */
  ghost predicate Evolves(before: map<int, Order>, after: map<int, Order>) {
    forall k :: k in before ==>
      && k in after
      && after[k].customerId == before[k].customerId
      && after[k].createdAt == before[k].createdAt
      && (before[k].shopperId.Some? ==> after[k].shopperId.Some?)
  }

  // ---------------------------------------------------------------------
  // Handlers
  // ---------------------------------------------------------------------

  /**
   * POST /api/orders: a customer creates an order from the whole request body,
   * without the insert schema. The owner is the caller and the order starts
   * pending, unassigned, at total 0, whatever the body says; the body's
   * service fee and paid flag are stored as they stand.
   */
  method HandleCreateOrder(store: MemStorage, session: Option<User>, body: OrderFields, now: int)
    returns (reply: Reply)
    requires store.Valid()
    modifies store
    ensures store.Valid()
    ensures Gate(PostOrders, session).Reject? ==> reply == Code(Gate(PostOrders, session).code) && unchanged(store)
    ensures Gate(PostOrders, session).Proceed? ==>
      var o := CreatedOrder(old(store.currentOrderId), NewOrder(session.value.id, body.items, body.notes, body.serviceFee, body.isPaid), now);
      && reply == OrderJson(o)
      && o.customerId == session.value.id
      && o.status == Pending && o.shopperId.None? && o.total == 0.0
      && o.serviceFee == body.serviceFee && o.isPaid == body.isPaid
      && store.orders == old(store.orders)[o.id := o]
      && store.users == old(store.users) && store.reviews == old(store.reviews)
    ensures Evolves(old(store.orders), store.orders)
    ensures ShopperAssigned(old(store.orders)) ==> ShopperAssigned(store.orders)
  {
    var d := Gate(PostOrders, session);
    if d.Reject? {
      return Code(d.code);
    }
    var order := store.CreateOrder(NewOrder(session.value.id, body.items, body.notes, body.serviceFee, body.isPaid), now);
    return OrderJson(order);
  }

  /** GET /api/orders/customer: the caller's own orders. */
  method HandleCustomerOrders(store: MemStorage, session: Option<User>) returns (reply: Reply)
    requires store.Valid()
    ensures Gate(GetCustomerOrders, session).Reject? ==> reply == Code(Gate(GetCustomerOrders, session).code)
    ensures Gate(GetCustomerOrders, session).Proceed? ==>
      && reply.OrdersJson?
      && reply.orders == Select(store.OrderList(), ByCustomer(session.value.id))
      && forall o :: o in reply.orders ==> o.customerId == session.value.id && store.HasOrder(o)
  {
    var d := Gate(GetCustomerOrders, session);
    if d.Reject? {
      return Code(d.code);
    }
    var orders := store.GetOrdersByCustomer(session.value.id);
    return OrdersJson(orders);
  }

  /** GET /api/orders/shopper: the orders assigned to the caller. */
  method HandleShopperOrders(store: MemStorage, session: Option<User>) returns (reply: Reply)
    requires store.Valid()
    ensures Gate(GetShopperOrders, session).Reject? ==> reply == Code(Gate(GetShopperOrders, session).code)
    ensures Gate(GetShopperOrders, session).Proceed? ==>
      && reply.OrdersJson?
      && reply.orders == Select(store.OrderList(), ByShopper(session.value.id))
      && forall o :: o in reply.orders ==> o.shopperId == Some(session.value.id) && store.HasOrder(o)
  {
    var d := Gate(GetShopperOrders, session);
    if d.Reject? {
      return Code(d.code);
    }
    var orders := store.GetOrdersByShopper(session.value.id);
    return OrdersJson(orders);
  }

  /** GET /api/orders/pending: every pending order, for an available shopper only. */
  method HandlePendingOrders(store: MemStorage, session: Option<User>) returns (reply: Reply)
    requires store.Valid()
    ensures session.Some? && session.value.role == Shopper && !session.value.isAvailable ==> reply == Code(403)
    ensures Gate(GetPendingOrders, session).Reject? ==> reply == Code(Gate(GetPendingOrders, session).code)
    ensures Gate(GetPendingOrders, session).Proceed? ==>
      && reply.OrdersJson?
      && reply.orders == Select(store.OrderList(), PendingOnly)
      && forall o :: o in reply.orders ==> o.status == Pending && store.HasOrder(o)
  {
    var d := Gate(GetPendingOrders, session);
    if d.Reject? {
      return Code(d.code);
    }
    var orders := store.GetPendingOrders();
    return OrdersJson(orders);
  }

  /**
   * POST /api/orders/:id/accept: any shopper takes the order, whatever its
   * status and even from another shopper; the customer is notified once.
   * An unknown id makes the store throw, which answers 500.
   */
  method HandleAccept(store: MemStorage, registry: ClientRegistry, session: Option<User>, orderId: int)
    returns (reply: Reply)
    requires store.Valid()
    modifies store, registry
    ensures store.Valid()
    ensures registry.clients == old(registry.clients)
    ensures Gate(PostAccept, session).Reject? ==>
      reply == Code(Gate(PostAccept, session).code) && unchanged(store) && registry.outbox == old(registry.outbox)
    ensures Gate(PostAccept, session).Proceed? && orderId !in old(store.orders) ==>
      reply == Failed(500, "Failed to accept order") && unchanged(store) && registry.outbox == old(registry.outbox)
    ensures Gate(PostAccept, session).Proceed? && orderId in old(store.orders) ==>
      var o := old(store.orders)[orderId].(shopperId := Some(session.value.id), status := Accepted);
      && reply == OrderJson(o)
      && store.orders == old(store.orders)[orderId := o]
      && store.users == old(store.users) && store.reviews == old(store.reviews)
      && registry.outbox == old(registry.outbox) + registry.DeliveriesTo(o.customerId, OrderUpdated(o))
    ensures Evolves(old(store.orders), store.orders)
    ensures ShopperAssigned(old(store.orders)) ==> ShopperAssigned(store.orders)
  {
    var d := Gate(PostAccept, session);
    if d.Reject? {
      return Code(d.code);
    }
    var r := store.AssignShopper(orderId, session.value.id);
    if r.Failure? {
      return Failed(500, "Failed to accept order");
    }
    registry.NotifyUser(r.value.customerId, OrderUpdated(r.value));
    return OrderJson(r.value);
  }

  /**
   * POST /api/orders/:id/status: the assigned shopper writes the status
   * string from the body, whatever it is; no forward-only check is made.
   * A missing order or another shopper's order answers 403 before any write.
   */
  method HandleStatus(store: MemStorage, registry: ClientRegistry, session: Option<User>, orderId: int, status: string)
    returns (reply: Reply)
    requires store.Valid()
    modifies store, registry
    ensures store.Valid()
    ensures registry.clients == old(registry.clients)
    ensures Gate(PostStatus, session).Reject? ==>
      reply == Code(Gate(PostStatus, session).code) && unchanged(store) && registry.outbox == old(registry.outbox)
    ensures Gate(PostStatus, session).Proceed? && !(orderId in old(store.orders) && Owns(PostStatus, session.value.id, old(store.orders)[orderId])) ==>
      reply == Code(403) && unchanged(store) && registry.outbox == old(registry.outbox)
    ensures Gate(PostStatus, session).Proceed? && orderId in old(store.orders) && Owns(PostStatus, session.value.id, old(store.orders)[orderId]) ==>
      var o := old(store.orders)[orderId].(status := ParseStatus(status));
      && reply == OrderJson(o)
      && store.orders == old(store.orders)[orderId := o]
      && store.users == old(store.users) && store.reviews == old(store.reviews)
      && registry.outbox == old(registry.outbox) + registry.DeliveriesTo(o.customerId, OrderUpdated(o))
    ensures Evolves(old(store.orders), store.orders)
    ensures ShopperAssigned(old(store.orders)) ==> ShopperAssigned(store.orders)
  {
    var d := Gate(PostStatus, session);
    if d.Reject? {
      return Code(d.code);
    }
    var order := store.GetOrder(orderId);
    if order.None? || order.value.shopperId != Some(session.value.id) {
      return Code(403);
    }
    var r := store.UpdateOrderStatus(orderId, ParseStatus(status));
    registry.NotifyUser(r.value.customerId, OrderUpdated(r.value));
    return OrderJson(r.value);
  }

  /**
   * POST /api/orders/:id/items: after the same checks as the status handler,
   * the store's item update runs; that operation is not part of this model,
   * so its outcome is a parameter (`Failure` when it throws). A returned
   * order is pushed to its customer once.
   */
  method HandleItems(store: MemStorage, registry: ClientRegistry, session: Option<User>, orderId: int, outcome: Result<Order>)
    returns (reply: Reply)
    requires store.Valid()
    modifies registry
    ensures registry.clients == old(registry.clients)
    ensures Gate(PostItems, session).Reject? ==>
      reply == Code(Gate(PostItems, session).code) && registry.outbox == old(registry.outbox)
    ensures Gate(PostItems, session).Proceed? && !(orderId in store.orders && Owns(PostItems, session.value.id, store.orders[orderId])) ==>
      reply == Code(403) && registry.outbox == old(registry.outbox)
    ensures Gate(PostItems, session).Proceed? && orderId in store.orders && Owns(PostItems, session.value.id, store.orders[orderId]) ==>
      if outcome.Failure? then
        reply == Failed(500, "Failed to update order items") && registry.outbox == old(registry.outbox)
      else
        && reply == OrderJson(outcome.value)
        && registry.outbox == old(registry.outbox) + registry.DeliveriesTo(outcome.value.customerId, OrderUpdated(outcome.value))
  {
    var d := Gate(PostItems, session);
    if d.Reject? {
      return Code(d.code);
    }
    var order := store.GetOrder(orderId);
    if order.None? || order.value.shopperId != Some(session.value.id) {
      return Code(403);
    }
    if outcome.Failure? {
      return Failed(500, "Failed to update order items");
    }
    registry.NotifyUser(outcome.value.customerId, OrderUpdated(outcome.value));
    return OrderJson(outcome.value);
  }

  /**
   * POST /api/orders/:id/pay: the owning customer's payment; the store's
   * payment operation is not part of this model, so its outcome is a
   * parameter, and its error message answers 400. No one is notified: the
   * handler does not call `notifyUser`, so the registry is not a parameter.
   */
  method HandlePay(store: MemStorage, session: Option<User>, orderId: int, outcome: Result<Order>)
    returns (reply: Reply)
    requires store.Valid()
    ensures Gate(PostPay, session).Reject? ==> reply == Code(Gate(PostPay, session).code)
    ensures Gate(PostPay, session).Proceed? && !(orderId in store.orders && Owns(PostPay, session.value.id, store.orders[orderId])) ==>
      reply == Code(403)
    ensures Gate(PostPay, session).Proceed? && orderId in store.orders && Owns(PostPay, session.value.id, store.orders[orderId]) ==>
      reply == (if outcome.Failure? then Failed(400, outcome.message) else OrderJson(outcome.value))
  {
    var d := Gate(PostPay, session);
    if d.Reject? {
      return Code(d.code);
    }
    var order := store.GetOrder(orderId);
    if order.None? || order.value.customerId != session.value.id {
      return Code(403);
    }
    match outcome
    case Failure(message) => return Failed(400, message);
    case Success(updated) => return OrderJson(updated);
  }

  /** The body of POST /api/reviews: which order, whom, the rating and an optional comment. */
  datatype ReviewBody = ReviewBody(fromId: Option<int>, orderId: int, toId: int, rating: int, comment: Option<string>)

  /**
   * POST /api/reviews: any logged-in user reviews anyone; the reviewer is the
   * caller, whatever the body says. No order, role or duplicate check. A
   * stored reviewee's rating becomes the mean of every rating it received.
   */
  method HandleCreateReview(store: MemStorage, session: Option<User>, body: ReviewBody) returns (reply: Reply)
    requires store.Valid()
    modifies store
    ensures store.Valid()
    ensures session.None? ==> reply == Code(401) && unchanged(store)
    ensures session.Some? ==>
      var rv := CreatedReview(old(store.currentReviewId), NewReview(body.orderId, session.value.id, body.toId, body.rating, body.comment));
      && reply == ReviewJson(rv)
      && rv.fromId == session.value.id
      && store.reviews == old(store.reviews)[rv.id := rv]
      && store.currentReviewId == old(store.currentReviewId) + 1
      && store.orders == old(store.orders)
    ensures session.Some? ==>
      && |ReviewsTo(store.ReviewList(), body.toId)| > 0
      && store.users == if body.toId in old(store.users)
        then old(store.users)[body.toId := old(store.users)[body.toId].(rating := MeanRating(ReviewsTo(store.ReviewList(), body.toId)))]
        else old(store.users)
  {
    var d := Gate(PostReviews, session);
    if d.Reject? {
      return Code(d.code);
    }
    var rv := store.CreateReview(NewReview(body.orderId, session.value.id, body.toId, body.rating, body.comment));
    return ReviewJson(rv);
  }

  /** GET /api/reviews/:userId: open to anyone, logged in or not. */
  method HandleListReviews(store: MemStorage, userId: int) returns (reply: Reply)
    requires store.Valid()
    ensures reply.ReviewsJson?
    ensures reply.reviews == ReviewsTo(store.ReviewList(), userId)
    ensures forall rv :: rv in reply.reviews <==> store.HasReview(rv) && rv.toId == userId
    ensures ReviewIdsAscending(reply.reviews)
  {
    var reviews := store.GetReviewsByUser(userId);
    return ReviewsJson(reviews);
  }

  /** POST /api/shoppers/availability: a shopper toggles their own availability. */
  method HandleAvailability(store: MemStorage, session: Option<User>, isAvailable: bool) returns (reply: Reply)
    requires store.Valid()
    modifies store
    ensures store.Valid()
    ensures store.orders == old(store.orders) && store.reviews == old(store.reviews)
    ensures Gate(PostAvailability, session).Reject? ==>
      reply == Code(Gate(PostAvailability, session).code) && unchanged(store)
    ensures Gate(PostAvailability, session).Proceed? && session.value.id !in old(store.users) ==>
      reply == Failed(500, "Failed to update availability") && unchanged(store)
    ensures Gate(PostAvailability, session).Proceed? && session.value.id in old(store.users) ==>
      var u := old(store.users)[session.value.id].(isAvailable := isAvailable);
      reply == UserJson(u) && store.users == old(store.users)[session.value.id := u]
  {
    var d := Gate(PostAvailability, session);
    if d.Reject? {
      return Code(d.code);
    }
    var r := store.UpdateUserAvailability(session.value.id, isAvailable);
    if r.Failure? {
      return Failed(500, "Failed to update availability");
    }
    return UserJson(r.value);
  }
}
