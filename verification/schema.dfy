/**
 * The shared data model: the `users`, `orders` and `reviews` tables with
 * their column defaults, the order-status and role enums, the order-item
 * validator and the three insert schemas (which fields a request may set).
 */
module Schema {
  import opened Wrappers

  // ---------------------------------------------------------------------
  // Order status
  // ---------------------------------------------------------------------

  /**
   * The six values of the status enum, plus `Other` for any other string.
   * Nothing on the server validates a status taken from a request body, so a
   * stored order can carry a string outside the enum.
   */
  datatype Status =
    | Pending
    | Accepted
    | Shopping
    | Delivering
    | Completed
    | Paid
    | Other(name: string)

  /** The enum's values, in the order the table declares them. */
  const StatusNames: seq<string> :=
    ["pending", "accepted", "shopping", "delivering", "completed", "paid"]

  /** The status a new order gets. */
  const DefaultStatus: Status := Pending

  /** True for the six values of the enum. */
  predicate InStatusEnum(s: Status) {
    !s.Other?
  }

  /** `Other` never spells one of the six names: one status, one value. */
  predicate Canonical(s: Status) {
    s.Other? ==> s.name !in StatusNames
  }

  /** The string a status is stored and sent as. */
  function StatusName(s: Status): string {
    match s
    case Pending => "pending"
    case Accepted => "accepted"
    case Shopping => "shopping"
    case Delivering => "delivering"
    case Completed => "completed"
    case Paid => "paid"
    case Other(n) => n
  }

  /** Reads a status string; strings outside the enum are kept as `Other`. */
  function ParseStatus(name: string): (s: Status)
    ensures StatusName(s) == name
    ensures Canonical(s)
    ensures InStatusEnum(s) <==> name in StatusNames
  {
    if name == "pending" then Pending
    else if name == "accepted" then Accepted
    else if name == "shopping" then Shopping
    else if name == "delivering" then Delivering
    else if name == "completed" then Completed
    else if name == "paid" then Paid
    else Other(name)
  }

  /** Writing a canonical status and reading it back gives the same status. */
  lemma StatusNameRoundTrip(s: Status)
    requires Canonical(s)
    ensures ParseStatus(StatusName(s)) == s
  {
    if s.Other? {
      assert s.name !in StatusNames;
      assert s.name != "pending" && s.name != "accepted" && s.name != "shopping";
      assert s.name != "delivering" && s.name != "completed" && s.name != "paid";
    }
  }

  /** For canonical statuses, comparing the stored strings is comparing the statuses. */
  lemma StatusNameInjective(s: Status, t: Status)
    requires Canonical(s) && Canonical(t)
    ensures StatusName(s) == StatusName(t) <==> s == t
  {
    if StatusName(s) == StatusName(t) {
      StatusNameRoundTrip(s);
      StatusNameRoundTrip(t);
    }
  }

  /** The enum holds exactly six distinct values. */
  lemma StatusEnumHasSixValues()
    ensures |StatusNames| == 6
    ensures forall i, j :: 0 <= i < j < |StatusNames| ==> StatusNames[i] != StatusNames[j]
    ensures forall n :: n in StatusNames <==> InStatusEnum(ParseStatus(n))
  {
  }

  // ---------------------------------------------------------------------
  // Roles
  // ---------------------------------------------------------------------

  datatype Role = Customer | Shopper

  /** The role enum: exactly "customer" and "shopper". */
  function ParseRole(name: string): (r: Option<Role>)
    ensures r.Some? <==> name == "customer" || name == "shopper"
    ensures r == Some(Customer) <==> name == "customer"
  {
    if name == "customer" then Some(Customer)
    else if name == "shopper" then Some(Shopper)
    else None
  }

  // ---------------------------------------------------------------------
  // Order items
  // ---------------------------------------------------------------------

  /** One line of an order. Prices and quantities are JavaScript numbers. */
  datatype OrderItem = OrderItem(name: string, price: real, purchased: bool, quantity: real)

  predicate IsWholeNumber(x: real) {
    x == x.Floor as real
  }

  /** The item validator: price at least 0, quantity an integer at least 1. */
  predicate IsValidItem(item: OrderItem) {
    item.price >= 0.0 && IsWholeNumber(item.quantity) && item.quantity >= 1.0
  }

  /** Every element passes the item validator (`z.array(orderItemSchema)`). */
  predicate AllValidItems(items: seq<OrderItem>) {
    forall i :: 0 <= i < |items| ==> IsValidItem(items[i])
  }

  /** The validator's boundaries: which prices and quantities it admits. */
  lemma ItemValidatorBounds(item: OrderItem)
    ensures IsValidItem(item) ==> item.quantity.Floor >= 1
    ensures item.price < 0.0 ==> !IsValidItem(item)
    ensures item.quantity == 1.5 ==> !IsValidItem(item)
    ensures item.price == 0.0 && item.quantity == 1.0 ==> IsValidItem(item)
  {
    if item.quantity == 1.5 {
      assert item.quantity.Floor == 1;
    }
  }

  // ---------------------------------------------------------------------
  // Records
  // ---------------------------------------------------------------------

  /** A row of `users`. */
  datatype User = User(
    id: int,
    username: string,
    password: string,
    role: Role,
    name: string,
    phone: string,
    isAvailable: bool,
    rating: real)

  /**
   * An order record. `serviceFee` and `isPaid` are `None` when the record has
   * no such field at all: the in-memory store does not default them, so an
   * order has them only when the creating request carried them. The table
   * itself fills them from its column defaults.
   */
  datatype Order = Order(
    id: int,
    customerId: int,
    shopperId: Option<int>,
    status: Status,
    items: seq<OrderItem>,
    notes: Option<string>,
    total: real,
    serviceFee: Option<real>,
    isPaid: Option<bool>,
    createdAt: int)

  /** A row of `reviews`. */
  datatype Review = Review(
    id: int,
    orderId: int,
    fromId: int,
    toId: int,
    rating: int,
    comment: Option<string>)

  // ---------------------------------------------------------------------
  // Column defaults
  // ---------------------------------------------------------------------

  const DefaultIsAvailable: bool := false
  const DefaultRating: real := 5.0
  const DefaultTotal: real := 0.0
  const DefaultServiceFee: real := 5.00
  const DefaultIsPaid: bool := false

  /** A new `users` row: the insert's columns plus the column defaults. */
  function NewUserRow(id: int, ins: InsertUser): User {
    User(id, ins.username, ins.password, ins.role, ins.name, ins.phone,
         DefaultIsAvailable, DefaultRating)
  }

  /** A new `orders` row: the insert's columns plus the column defaults. */
  function NewOrderRow(id: int, customerId: int, ins: InsertOrder, createdAt: int): Order {
    Order(id, customerId, None, DefaultStatus, ins.items, ins.notes,
          DefaultTotal, Some(DefaultServiceFee), Some(DefaultIsPaid), createdAt)
  }

  // ---------------------------------------------------------------------
  // Insert schemas
  // ---------------------------------------------------------------------

  /** The columns a request body may carry for a user; absent ones are `None`. */
  datatype UserFields = UserFields(
    id: Option<int>,
    username: Option<string>,
    password: Option<string>,
    role: Option<string>,
    name: Option<string>,
    phone: Option<string>,
    isAvailable: Option<bool>,
    rating: Option<real>)

  datatype InsertUser = InsertUser(
    username: string, password: string, role: Role, name: string, phone: string)

  /**
   * The user insert schema: it picks username, password, role, name and
   * phone (all required, role from the enum) and strips everything else.
   */
  function ParseInsertUser(f: UserFields): (r: Option<InsertUser>)
    ensures r.Some? <==>
      && f.username.Some? && f.password.Some? && f.name.Some? && f.phone.Some?
      && f.role.Some? && ParseRole(f.role.value).Some?
    ensures r.Some? ==>
      && r.value.username == f.username.value && r.value.password == f.password.value
      && r.value.name == f.name.value && r.value.phone == f.phone.value
      && Some(r.value.role) == ParseRole(f.role.value)
  {
    if f.username.None? || f.password.None? || f.name.None? || f.phone.None? || f.role.None? then None
    else
      match ParseRole(f.role.value)
      case None => None
      case Some(role) =>
        Some(InsertUser(f.username.value, f.password.value, role, f.name.value, f.phone.value))
  }

  /** Id, availability and rating in a body never reach the insert. */
  lemma InsertUserIgnoresOtherFields(f: UserFields, id: Option<int>, isAvailable: Option<bool>, rating: Option<real>)
    ensures ParseInsertUser(f) == ParseInsertUser(f.(id := id, isAvailable := isAvailable, rating := rating))
  {
  }

  /** The columns a request body may carry for an order; absent ones are `None`. */
  datatype OrderFields = OrderFields(
    id: Option<int>,
    customerId: Option<int>,
    shopperId: Option<int>,
    status: Option<string>,
    items: Option<seq<OrderItem>>,
    notes: Option<string>,
    total: Option<real>,
    serviceFee: Option<real>,
    isPaid: Option<bool>)

  datatype InsertOrder = InsertOrder(items: seq<OrderItem>, notes: Option<string>)

  /**
   * The order insert schema: `items` (required, every element a valid item)
   * and `notes` (optional); every other column is stripped.
   */
  function ParseInsertOrder(f: OrderFields): (r: Option<InsertOrder>)
    ensures r.Some? <==> f.items.Some? && AllValidItems(f.items.value)
    ensures r.Some? ==> r.value.items == f.items.value && r.value.notes == f.notes
  {
    match f.items
    case None => None
    case Some(items) => if AllValidItems(items) then Some(InsertOrder(items, f.notes)) else None
  }

  /**
   * Through the insert schema, a body cannot choose its owner, shopper,
   * status, total, fee or payment flag. The order route does not apply this
   * schema (see `Routes.HandleCreateOrder`).
   */
  lemma InsertOrderIgnoresOtherFields(
    f: OrderFields, id: Option<int>, customerId: Option<int>, shopperId: Option<int>,
    status: Option<string>, total: Option<real>, serviceFee: Option<real>, isPaid: Option<bool>)
    ensures ParseInsertOrder(f) == ParseInsertOrder(f.(
      id := id, customerId := customerId, shopperId := shopperId, status := status,
      total := total, serviceFee := serviceFee, isPaid := isPaid))
  {
  }

  /** The columns a request body may carry for a review; absent ones are `None`. */
  datatype ReviewFields = ReviewFields(
    id: Option<int>,
    orderId: Option<int>,
    fromId: Option<int>,
    toId: Option<int>,
    rating: Option<int>,
    comment: Option<string>)

  datatype InsertReview = InsertReview(rating: int, comment: Option<string>)

  /** The review insert schema: `rating` (required) and `comment` (optional). */
  function ParseInsertReview(f: ReviewFields): (r: Option<InsertReview>)
    ensures r.Some? <==> f.rating.Some?
    ensures r.Some? ==> r.value.rating == f.rating.value && r.value.comment == f.comment
  {
    match f.rating
    case None => None
    case Some(rating) => Some(InsertReview(rating, f.comment))
  }

  /** Order, reviewer and reviewee in a body never reach the insert. */
  lemma InsertReviewIgnoresOtherFields(
    f: ReviewFields, id: Option<int>, orderId: Option<int>, fromId: Option<int>, toId: Option<int>)
    ensures ParseInsertReview(f) == ParseInsertReview(f.(id := id, orderId := orderId, fromId := fromId, toId := toId))
  {
  }
}
