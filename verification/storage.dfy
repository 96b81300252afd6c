/**
 * The in-memory store: three maps keyed by integer id and three id counters,
 * updated in place by the create and update operations.
 *
 * A JavaScript `Map` lists its values in insertion order. The store only ever
 * inserts a key under a fresh id taken from a counter that starts at 1 and
 * only grows, and never deletes, so insertion order is ascending id order and
 * the keys are exactly 1 up to the counter. `Valid` records that, and the
 * queries walk the ids in that order.
 */
module Storage {
  import opened Wrappers
  import opened Schema

  /**
   * What `createOrder` receives: the owner, and the request body's items,
   * notes, service fee and paid flag (each may be absent).
   */
  datatype NewOrder = NewOrder(
    customerId: int,
    items: Option<seq<OrderItem>>,
    notes: Option<string>,
    serviceFee: Option<real>,
    isPaid: Option<bool>)

  /** What `createReview` receives: the insert fields plus order, reviewer and reviewee. */
  datatype NewReview = NewReview(orderId: int, fromId: int, toId: int, rating: int, comment: Option<string>)

  /** The record `createUser` stores: the insert plus rating 5.0 and not available. */
  function CreatedUser(id: int, ins: InsertUser): User {
    User(id, ins.username, ins.password, ins.role, ins.name, ins.phone, false, 5.0)
  }

  /**
   * The record `createOrder` stores: pending, no shopper, total 0, the given
   * timestamp, items defaulting to [] and notes to null. Service fee and the
   * paid flag are not overridden: they are whatever the spread request
   * carried, and absent when it carried none.
   */
  function CreatedOrder(id: int, req: NewOrder, createdAt: int): Order {
    Order(id, req.customerId, None, Pending, req.items.GetOr([]), req.notes, 0.0, req.serviceFee, req.isPaid, createdAt)
  }

  /** The record `createReview` stores: comment defaulting to null. */
  function CreatedReview(id: int, req: NewReview): Review {
    Review(id, req.orderId, req.fromId, req.toId, req.rating, req.comment)
  }

  // ---------------------------------------------------------------------
  // Queries over the stored values, as functions
  // ---------------------------------------------------------------------

  /** The three order queries. */
  datatype OrderQuery = ByCustomer(customerId: int) | ByShopper(shopperId: int) | PendingOnly

  predicate Matches(q: OrderQuery, o: Order) {
    match q
    case ByCustomer(c) => o.customerId == c
    case ByShopper(s) => o.shopperId == Some(s)
    case PendingOnly => o.status == Pending
  }

  predicate IdsAscending(xs: seq<Order>) {
    forall i, j :: 0 <= i < j < |xs| ==> xs[i].id < xs[j].id
  }

  /** The orders of `xs` that match `q`, in their order in `xs`. */
  function Select(xs: seq<Order>, q: OrderQuery): (r: seq<Order>)
    ensures forall o :: o in r <==> o in xs && Matches(q, o)
    ensures IdsAscending(xs) ==> IdsAscending(r)
    ensures |r| <= |xs|
  {
    if xs == [] then []
    else
      var init, last := xs[..|xs| - 1], xs[|xs| - 1];
      assert xs == init + [last];
      var s := Select(init, q);
      var r := s + (if Matches(q, last) then [last] else []);
      assert IdsAscending(xs) ==> IdsAscending(r) by {
        if IdsAscending(xs) {
          assert IdsAscending(init);
          forall i, j | 0 <= i < j < |r|
            ensures r[i].id < r[j].id
          {
            if j >= |s| {
              assert r[i] in init;
            }
          }
        }
      }
      r
  }

  predicate ReviewIdsAscending(xs: seq<Review>) {
    forall i, j :: 0 <= i < j < |xs| ==> xs[i].id < xs[j].id
  }

  /** The reviews of `xs` whose reviewee is `toId`, in their order in `xs`. */
  function ReviewsTo(xs: seq<Review>, toId: int): (r: seq<Review>)
    ensures forall rv :: rv in r <==> rv in xs && rv.toId == toId
    ensures ReviewIdsAscending(xs) ==> ReviewIdsAscending(r)
    ensures |r| <= |xs|
  {
    if xs == [] then []
    else
      var init, last := xs[..|xs| - 1], xs[|xs| - 1];
      assert xs == init + [last];
      var s := ReviewsTo(init, toId);
      var r := s + (if last.toId == toId then [last] else []);
      assert ReviewIdsAscending(xs) ==> ReviewIdsAscending(r) by {
        if ReviewIdsAscending(xs) {
          assert ReviewIdsAscending(init);
          forall i, j | 0 <= i < j < |r|
            ensures r[i].id < r[j].id
          {
            if j >= |s| {
              assert r[i] in init;
            }
          }
        }
      }
      r
  }

  /**
   * A list in strictly ascending id order is fixed by which reviews it holds:
   * two such lists with the same members are equal, so none is repeated,
   * left out or moved. With `ReviewListSpec`, the reviews a reviewee received,
   * and hence their count and mean, are determined by the stored reviews.
   */
  lemma {:induction false} AscendingReviewsDeterminedByMembers(a: seq<Review>, b: seq<Review>)
    requires ReviewIdsAscending(a) && ReviewIdsAscending(b)
    requires forall rv :: rv in a <==> rv in b
    ensures a == b
    decreases |a|
  {
    if a != [] || b != [] {
      assert a + b != [] && (a + b)[0] in a + b;
      var x :| x in a + b;
      assert x in a && x in b;
      AscendingHead(a);
      AscendingHead(b);
      assert a[0] in b && b[0] in a;
      AscendingReviewsDeterminedByMembers(a[1..], b[1..]);
      assert a == [a[0]] + a[1..] && b == [b[0]] + b[1..];
    }
  }

  /** The head of an ascending list has the smallest id; the tail is the rest, still ascending. */
  lemma AscendingHead(a: seq<Review>)
    requires ReviewIdsAscending(a) && a != []
    ensures forall rv :: rv in a[1..] ==> a[0].id < rv.id
    ensures forall rv :: rv in a[1..] <==> rv in a && rv != a[0]
    ensures ReviewIdsAscending(a[1..])
  {
    forall rv | rv in a[1..]
      ensures a[0].id < rv.id
    {
      var k :| 1 <= k < |a| && a[k] == rv;
    }
    assert a == [a[0]] + a[1..];
  }

  /** The sum of the ratings (the `reduce` in `createReview`). */
  function SumRatings(rs: seq<Review>): int {
    if rs == [] then 0 else SumRatings(rs[..|rs| - 1]) + rs[|rs| - 1].rating
  }

  /** The arithmetic mean of the ratings, computed exactly. */
  function MeanRating(rs: seq<Review>): real
    requires |rs| > 0
  {
    SumRatings(rs) as real / |rs| as real
  }

  /** If every rating lies in [lo, hi], so does their sum divided by their number. */
  lemma {:induction false} SumRatingsBounds(rs: seq<Review>, lo: int, hi: int)
    requires forall i :: 0 <= i < |rs| ==> lo <= rs[i].rating <= hi
    ensures lo * |rs| <= SumRatings(rs) <= hi * |rs|
  {
    if rs != [] {
      SumRatingsBounds(rs[..|rs| - 1], lo, hi);
    }
  }

  /** The mean of ratings in [lo, hi] lies in [lo, hi]: a 1-5 scale keeps ratings on the scale. */
  lemma MeanRatingBounds(rs: seq<Review>, lo: int, hi: int)
    requires |rs| > 0
    requires forall i :: 0 <= i < |rs| ==> lo <= rs[i].rating <= hi
    ensures lo as real <= MeanRating(rs) <= hi as real
  {
    SumRatingsBounds(rs, lo, hi);
    var n := |rs| as real;
    assert lo as real * n <= SumRatings(rs) as real <= hi as real * n;
  }

  /** The mean is recomputed from all ratings: ratings 5, 3 and 4 give exactly 4.0. */
  lemma MeanOfThreeRatings(a: Review, b: Review, c: Review)
    requires a.rating == 5 && b.rating == 3 && c.rating == 4
    ensures MeanRating([a, b, c]) == 4.0
  {
    assert [a, b, c][..2] == [a, b];
    assert [a, b][..1] == [a];
    assert [a][..0] == [];
    assert SumRatings([a]) == 5;
    assert SumRatings([a, b]) == 8;
    assert SumRatings([a, b, c]) == 12;
  }

  /** The values of a map keyed 1 .. n - 1, in key order. */
  function Listed<T>(m: map<int, T>, n: int): seq<T>
    requires forall k :: 1 <= k < n ==> k in m
  {
    seq(if n < 1 then 0 else n - 1, i requires 0 <= i < n - 1 => m[i + 1])
  }

  /** The keys of `m` are exactly 1 up to `next` (exclusive). */
  ghost predicate DenseKeys<T>(m: map<int, T>, next: int) {
    1 <= next && forall k :: k in m <==> 1 <= k < next
  }

  /** Rewriting a stored user under its own id keeps the user keys dense and self-identifying. */
  lemma UserRewrite(before: map<int, User>, after: map<int, User>, next: int, u: User)
    requires DenseKeys(before, next) && forall k :: k in before ==> before[k].id == k
    requires u.id in before && after == before[u.id := u]
    ensures DenseKeys(after, next)
    ensures forall k :: k in after ==> after[k].id == k
  {
  }

  /**
   * Storing a review under the next id keeps the review keys dense and
   * self-identifying, and the new review is among those its reviewee received.
   */
  lemma ReviewInsert(before: map<int, Review>, after: map<int, Review>, next: int, rv: Review)
    requires DenseKeys(before, next) && forall k :: k in before ==> before[k].id == k
    requires rv.id == next && after == before[next := rv]
    ensures DenseKeys(after, next + 1)
    ensures forall k :: k in after ==> after[k].id == k
    ensures rv in ReviewsTo(Listed(after, next + 1), rv.toId)
  {
    var all := Listed(after, next + 1);
    assert all[next - 1] == rv;
  }

  // ---------------------------------------------------------------------
  // The store
  // ---------------------------------------------------------------------

  class MemStorage {
    var users: map<int, User>
    var orders: map<int, Order>
    var reviews: map<int, Review>
    var currentUserId: int
    var currentOrderId: int
    var currentReviewId: int

    /** Ids are dense from 1 below each counter, and every record carries its own key as id. */
    ghost predicate Valid()
      reads this
    {
      UsersValid() && OrdersValid() && ReviewsValid()
    }

    ghost predicate UsersValid()
      reads this`users, this`currentUserId
    {
      DenseKeys(users, currentUserId) && forall k :: k in users ==> users[k].id == k
    }

    ghost predicate OrdersValid()
      reads this`orders, this`currentOrderId
    {
      DenseKeys(orders, currentOrderId) && forall k :: k in orders ==> orders[k].id == k
    }

    ghost predicate ReviewsValid()
      reads this`reviews, this`currentReviewId
    {
      DenseKeys(reviews, currentReviewId) && forall k :: k in reviews ==> reviews[k].id == k
    }

    /** `Array.from(orders.values())`: the stored orders in insertion order. */
    function OrderList(): seq<Order>
      reads this`orders, this`currentOrderId
      requires DenseKeys(orders, currentOrderId)
    {
      Listed(orders, currentOrderId)
    }

    /** `Array.from(reviews.values())`: the stored reviews in insertion order. */
    function ReviewList(): seq<Review>
      reads this`reviews, this`currentReviewId
      requires DenseKeys(reviews, currentReviewId)
    {
      Listed(reviews, currentReviewId)
    }

    /** The order is stored, under its own id. */
    ghost predicate HasOrder(o: Order)
      reads this
    {
      o.id in orders && orders[o.id] == o
    }

    /** The review is stored, under its own id. */
    ghost predicate HasReview(rv: Review)
      reads this
    {
      rv.id in reviews && reviews[rv.id] == rv
    }

    /** The user is stored, under its own id. */
    ghost predicate HasUser(u: User)
      reads this
    {
      u.id in users && users[u.id] == u
    }

    /** Listing the orders loses none, adds none and keeps ids ascending. */
    lemma OrderListSpec()
      requires Valid()
      ensures forall o :: o in OrderList() <==> HasOrder(o)
      ensures IdsAscending(OrderList())
    {
      var xs := OrderList();
      forall o | HasOrder(o) ensures o in xs {
        assert xs[o.id - 1] == o;
      }
    }

    /** Listing the reviews loses none, adds none, and keeps insertion (ascending id) order. */
    lemma ReviewListSpec()
      requires ReviewsValid()
      ensures forall rv :: rv in ReviewList() <==> HasReview(rv)
      ensures ReviewIdsAscending(ReviewList())
    {
      var xs := ReviewList();
      forall rv | HasReview(rv) ensures rv in xs {
        assert xs[rv.id - 1] == rv;
      }
    }

    /**
     * The reviews a user received, as the rating is computed from them, are
     * the only list in ascending id order that holds exactly the stored
     * reviews naming that user: each one once, none missing, in insertion order.
     */
    lemma ReceivedReviewsCharacterised(toId: int, r: seq<Review>)
      requires ReviewsValid()
      requires ReviewIdsAscending(r)
      requires forall rv :: rv in r <==> HasReview(rv) && rv.toId == toId
      ensures r == ReviewsTo(ReviewList(), toId)
    {
      ReviewListSpec();
      AscendingReviewsDeterminedByMembers(r, ReviewsTo(ReviewList(), toId));
    }

    constructor ()
      ensures Valid()
      ensures users == map[] && orders == map[] && reviews == map[]
      ensures currentUserId == 1 && currentOrderId == 1 && currentReviewId == 1
    {
      users, orders, reviews := map[], map[], map[];
      currentUserId, currentOrderId, currentReviewId := 1, 1, 1;
    }

    /** Looks a user up by id: found exactly when the id has been issued. */
    function GetUser(id: int): (r: Option<User>)
      reads this`users, this`currentUserId
      requires UsersValid()
      ensures r.Some? <==> 1 <= id < currentUserId
      ensures r.Some? ==> r.value.id == id && HasUser(r.value)
    {
      if id in users then Some(users[id]) else None
    }

    /** The first user, in insertion order, with the given username. */
    method GetUserByUsername(username: string) returns (r: Option<User>)
      requires Valid()
      ensures r.Some? ==> HasUser(r.value) && r.value.username == username
      ensures r.Some? ==> forall k :: k in users && k < r.value.id ==> users[k].username != username
      ensures r.None? ==> forall k :: k in users ==> users[k].username != username
    {
      var k := 1;
      while k < currentUserId
        invariant 1 <= k <= currentUserId
        invariant forall j :: 1 <= j < k ==> users[j].username != username
      {
        if users[k].username == username {
          return Some(users[k]);
        }
        k := k + 1;
      }
      return None;
    }

    /** Adds a user under the next user id, with rating 5.0 and not available. */
    method CreateUser(ins: InsertUser) returns (u: User)
      requires Valid()
      modifies this
      ensures Valid()
      ensures u == CreatedUser(old(currentUserId), ins)
      ensures u.id !in old(users) && forall k :: k in old(users) ==> k < u.id
      ensures users == old(users)[u.id := u] && currentUserId == old(currentUserId) + 1
      ensures orders == old(orders) && reviews == old(reviews)
      ensures currentOrderId == old(currentOrderId) && currentReviewId == old(currentReviewId)
    {
      var id := currentUserId;
      currentUserId := currentUserId + 1;
      u := CreatedUser(id, ins);
      users := users[id := u];
    }

    /** Sets one user's availability; throws "User not found" for an unknown id. */
    method UpdateUserAvailability(id: int, isAvailable: bool) returns (r: Result<User>)
      requires Valid()
      modifies this
      ensures Valid()
      ensures id !in old(users) ==> r == Failure("User not found") && unchanged(this)
      ensures id in old(users) ==>
        && r == Success(old(users)[id].(isAvailable := isAvailable))
        && users == old(users)[id := r.value]
      ensures orders == old(orders) && reviews == old(reviews)
      ensures currentUserId == old(currentUserId) && currentOrderId == old(currentOrderId)
      ensures currentReviewId == old(currentReviewId)
    {
      var user := GetUser(id);
      if user.None? {
        return Failure("User not found");
      }
      var updated := user.value.(isAvailable := isAvailable);
      users := users[id := updated];
      return Success(updated);
    }

    /** Adds an order under the next order id, pending, unassigned, total 0. */
    method CreateOrder(req: NewOrder, now: int) returns (o: Order)
      requires Valid()
      modifies this
      ensures Valid()
      ensures o == CreatedOrder(old(currentOrderId), req, now)
      ensures o.id !in old(orders) && forall k :: k in old(orders) ==> k < o.id
      ensures orders == old(orders)[o.id := o] && currentOrderId == old(currentOrderId) + 1
      ensures users == old(users) && reviews == old(reviews)
      ensures currentUserId == old(currentUserId) && currentReviewId == old(currentReviewId)
    {
      var id := currentOrderId;
      currentOrderId := currentOrderId + 1;
      o := CreatedOrder(id, req, now);
      orders := orders[id := o];
    }

    /** Looks an order up by id: found exactly when the id has been issued. */
    function GetOrder(id: int): (r: Option<Order>)
      reads this
      requires Valid()
      ensures r.Some? <==> 1 <= id < currentOrderId
      ensures r.Some? ==> r.value.id == id && HasOrder(r.value)
    {
      if id in orders then Some(orders[id]) else None
    }

    /** Exactly the stored orders of this customer, in ascending id order. */
    method GetOrdersByCustomer(customerId: int) returns (r: seq<Order>)
      requires Valid()
      ensures r == Select(OrderList(), ByCustomer(customerId))
      ensures forall o :: o in r <==> HasOrder(o) && o.customerId == customerId
      ensures IdsAscending(r)
    {
      OrderListSpec();
      r := Select(OrderList(), ByCustomer(customerId));
    }

    /** Exactly the stored orders assigned to this shopper, in ascending id order. */
    method GetOrdersByShopper(shopperId: int) returns (r: seq<Order>)
      requires Valid()
      ensures r == Select(OrderList(), ByShopper(shopperId))
      ensures forall o :: o in r <==> HasOrder(o) && o.shopperId == Some(shopperId)
      ensures IdsAscending(r)
    {
      OrderListSpec();
      r := Select(OrderList(), ByShopper(shopperId));
    }

    /** Exactly the stored pending orders, in ascending id order. */
    method GetPendingOrders() returns (r: seq<Order>)
      requires Valid()
      ensures r == Select(OrderList(), PendingOnly)
      ensures forall o :: o in r <==> HasOrder(o) && o.status == Pending
      ensures IdsAscending(r)
    {
      OrderListSpec();
      r := Select(OrderList(), PendingOnly);
    }

    /**
     * Writes the given status into one order, whatever its current status:
     * no transition is checked. Throws "Order not found" for an unknown id.
     */
    method UpdateOrderStatus(id: int, status: Status) returns (r: Result<Order>)
      requires Valid()
      modifies this
      ensures Valid()
      ensures id !in old(orders) ==> r == Failure("Order not found") && unchanged(this)
      ensures id in old(orders) ==>
        && r == Success(old(orders)[id].(status := status))
        && orders == old(orders)[id := r.value]
      ensures users == old(users) && reviews == old(reviews)
      ensures currentUserId == old(currentUserId) && currentOrderId == old(currentOrderId)
      ensures currentReviewId == old(currentReviewId)
    {
      var order := GetOrder(id);
      if order.None? {
        return Failure("Order not found");
      }
      var updated := order.value.(status := status);
      orders := orders[id := updated];
      return Success(updated);
    }

    /**
     * Sets the shopper and status "accepted" on one order, whatever its
     * status and even if a shopper is already set. Throws "Order not found"
     * for an unknown id.
     */
    method AssignShopper(orderId: int, shopperId: int) returns (r: Result<Order>)
      requires Valid()
      modifies this
      ensures Valid()
      ensures orderId !in old(orders) ==> r == Failure("Order not found") && unchanged(this)
      ensures orderId in old(orders) ==>
        && r == Success(old(orders)[orderId].(shopperId := Some(shopperId), status := Accepted))
        && orders == old(orders)[orderId := r.value]
      ensures users == old(users) && reviews == old(reviews)
      ensures currentUserId == old(currentUserId) && currentOrderId == old(currentOrderId)
      ensures currentReviewId == old(currentReviewId)
    {
      var order := GetOrder(orderId);
      if order.None? {
        return Failure("Order not found");
      }
      var updated := order.value.(shopperId := Some(shopperId), status := Accepted);
      orders := orders[orderId := updated];
      return Success(updated);
    }

    /** Exactly the stored reviews of this reviewee, in insertion order. */
    method GetReviewsByUser(userId: int) returns (r: seq<Review>)
      requires ReviewsValid()
      ensures r == ReviewsTo(ReviewList(), userId)
      ensures forall rv :: rv in r <==> HasReview(rv) && rv.toId == userId
      ensures ReviewIdsAscending(r)
    {
      ReviewListSpec();
      r := ReviewsTo(ReviewList(), userId);
    }

    /** The first half of `createReview`: the review is stored under the next review id. */
    method StoreReview(req: NewReview) returns (rv: Review)
      requires ReviewsValid()
      modifies this`reviews, this`currentReviewId
      ensures ReviewsValid()
      ensures rv == CreatedReview(old(currentReviewId), req)
      ensures rv.id !in old(reviews) && forall k :: k in old(reviews) ==> k < rv.id
      ensures reviews == old(reviews)[rv.id := rv] && currentReviewId == old(currentReviewId) + 1
      ensures rv in ReviewsTo(ReviewList(), req.toId)
    {
      var id := currentReviewId;
      rv := CreatedReview(id, req);
      ReviewInsert(reviews, reviews[id := rv], id, rv);
      reviews := reviews[id := rv];
      currentReviewId := id + 1;
    }

    /** The mean rating of the reviews naming `toId`: their sum divided by their number. */
    method AverageRating(toId: int) returns (avg: real)
      requires ReviewsValid()
      requires |ReviewsTo(ReviewList(), toId)| > 0
      ensures avg == MeanRating(ReviewsTo(ReviewList(), toId))
    {
      var userReviews := GetReviewsByUser(toId);
      var totalRating := SumRatings(userReviews);
      avg := totalRating as real / |userReviews| as real;
    }

    /**
     * The second half of `createReview`: the reviewee's rating, when the
     * reviewee exists, becomes the mean of every stored rating it received.
     * The caller has just stored one, so the divisor is not 0.
     */
    method UpdateRating(toId: int)
      requires UsersValid() && ReviewsValid()
      requires |ReviewsTo(ReviewList(), toId)| > 0
      modifies this`users
      ensures UsersValid()
      ensures users == if toId in old(users)
        then old(users)[toId := old(users)[toId].(rating := MeanRating(ReviewsTo(ReviewList(), toId)))]
        else old(users)
    {
      var avgRating := AverageRating(toId);
      var user := GetUser(toId);
      if user.Some? {
        var updated := user.value.(rating := avgRating);
        UserRewrite(users, users[user.value.id := updated], currentUserId, updated);
        users := users[user.value.id := updated];
      }
    }

    /**
     * Stores the review under the next review id, then sets the reviewee's
     * rating (when the reviewee exists) to the mean of every stored rating
     * it has received, the new one included.
     */
    method CreateReview(req: NewReview) returns (rv: Review)
      requires Valid()
      modifies this
      ensures Valid()
      ensures rv == CreatedReview(old(currentReviewId), req)
      ensures rv.id !in old(reviews) && forall k :: k in old(reviews) ==> k < rv.id
      ensures reviews == old(reviews)[rv.id := rv] && currentReviewId == old(currentReviewId) + 1
      ensures |ReviewsTo(ReviewList(), req.toId)| > 0
      ensures users == if req.toId in old(users)
        then old(users)[req.toId := old(users)[req.toId].(rating := MeanRating(ReviewsTo(ReviewList(), req.toId)))]
        else old(users)
      ensures unchanged(this`orders, this`currentUserId, this`currentOrderId)
    {
      rv := StoreReview(req);
      ghost var received := ReviewsTo(ReviewList(), req.toId);
      assert rv in received;
      UpdateRating(req.toId);
      assert ReviewsTo(ReviewList(), req.toId) == received;
    }
  }

  /**
   * The record the store creates agrees with the table's column defaults,
   * except for the service fee and the paid flag: those are taken from the
   * request as they stand, where the table would default them.
   */
  lemma CreatedOrderMatchesColumnDefaults(id: int, req: NewOrder, ins: InsertOrder, createdAt: int)
    requires req.items == Some(ins.items) && req.notes == ins.notes
    ensures CreatedOrder(id, req, createdAt)
      == NewOrderRow(id, req.customerId, ins, createdAt).(serviceFee := req.serviceFee, isPaid := req.isPaid)
    ensures NewOrderRow(id, req.customerId, ins, createdAt).serviceFee == Some(5.00)
    ensures NewOrderRow(id, req.customerId, ins, createdAt).isPaid == Some(false)
  {
  }

  /** The user the store creates is exactly the table's new row with its column defaults. */
  lemma CreatedUserMatchesColumnDefaults(id: int, ins: InsertUser)
    ensures CreatedUser(id, ins) == NewUserRow(id, ins)
    ensures CreatedUser(id, ins).rating == 5.0 && !CreatedUser(id, ins).isAvailable
  {
  }
}
