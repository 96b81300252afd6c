/**
 * The shopper dashboard's rules: the status an order is advanced to, the
 * advance button (whether it shows, what it says, what a click sends), and
 * the two item edits, each a copy of the item list with one entry replaced.
 */
module ShopperDashboard {
  import opened Wrappers
  import opened Schema
  import OrderProgress

  /**
   * The status the advance button proposes: one step forward for accepted,
   * shopping and delivering, and nothing for every other status.
   */
  function NextStatus(current: Status): (r: Option<Status>)
    ensures r.Some? <==> current in {Accepted, Shopping, Delivering}
    ensures r != Some(Pending) && r != Some(Accepted) && r != Some(Paid)
  {
    match current
    case Accepted => Some(Shopping)
    case Shopping => Some(Delivering)
    case Delivering => Some(Completed)
    case _ => None
  }

  /** The proposed status is always the very next stage on the progress bar. */
  lemma NextStatusIsNextStage(current: Status)
    ensures NextStatus(current).Some? ==>
      && 0 <= OrderProgress.StageIndex(current)
      && OrderProgress.StageIndex(NextStatus(current).value) == OrderProgress.StageIndex(current) + 1
  {
    OrderProgress.StageIndexValues(current);
    if NextStatus(current).Some? {
      OrderProgress.StageIndexValues(NextStatus(current).value);
    }
  }

  /** Applies `NextStatus` `n` times, stopping at the first `None`. */
  function Advance(s: Status, n: nat): Option<Status>
    decreases n
  {
    if n == 0 then Some(s)
    else match NextStatus(s)
      case None => None
      case Some(t) => Advance(t, n - 1)
  }

  /** From accepted, three advances reach completed and a fourth yields nothing. */
  lemma ThreeStepsToCompleted()
    ensures Advance(Accepted, 1) == Some(Shopping)
    ensures Advance(Accepted, 2) == Some(Delivering)
    ensures Advance(Accepted, 3) == Some(Completed)
    ensures NextStatus(Completed).None?
    ensures forall n :: n > 3 ==> Advance(Accepted, n).None?
  {
    forall n | n > 3
      ensures Advance(Accepted, n).None?
    {
      assert Advance(Accepted, n) == Advance(Shopping, n - 1) == Advance(Delivering, n - 2) == Advance(Completed, n - 3);
    }
  }

  /** The advance button is rendered for every order not completed, paid ones included. */
  predicate AdvanceShown(status: Status) {
    status != Completed
  }

  /** The advance button's caption. */
  function AdvanceLabel(status: Status): (r: string)
    ensures status == Accepted ==> r == "Start Shopping"
    ensures status == Shopping ==> r == "Start Delivery"
    ensures status != Accepted && status != Shopping ==> r == "Mark as Delivered"
  {
    if status == Accepted then "Start Shopping"
    else if status == Shopping then "Start Delivery"
    else "Mark as Delivered"
  }

  /**
   * What a click on the advance button sends: the next status, if any. The
   * button is absent for a completed order and disabled while a status update
   * is in flight, so neither can send anything.
   */
  function AdvanceClick(status: Status, updatePending: bool): (r: Option<Status>)
    ensures r.Some? <==> AdvanceShown(status) && !updatePending && NextStatus(status).Some?
    ensures r.Some? ==> r == NextStatus(status)
  {
    if !AdvanceShown(status) || updatePending then None else NextStatus(status)
  }

  /** A pending or paid order shows "Mark as Delivered", yet a click sends nothing. */
  lemma InertAdvanceButton(status: Status, updatePending: bool)
    requires status == Pending || status == Paid
    ensures AdvanceShown(status)
    ensures AdvanceLabel(status) == "Mark as Delivered"
    ensures AdvanceClick(status, updatePending).None?
  {
  }

  /** The price and purchased inputs are disabled only for a completed order. */
  predicate ItemEditsEnabled(status: Status) {
    status != Completed
  }

  /** Item edits and the advance button are switched off by the same test: a paid order stays editable. */
  lemma EditsFollowAdvanceButton(status: Status)
    ensures ItemEditsEnabled(status) <==> AdvanceShown(status)
    ensures !ItemEditsEnabled(Completed) && ItemEditsEnabled(Paid)
  {
  }

  /**
   * `parseFloat(text) || 0`: the parsed number, or 0 when parsing yields NaN
   * (`None`) or 0.
   */
  function PriceOrZero(parsed: Option<real>): (p: real)
    ensures parsed.Some? ==> p == parsed.value
    ensures parsed.None? ==> p == 0.0
  {
    match parsed
    case Some(v) => v
    case None => 0.0
  }

  /** A price edit on row `index`: a copy of the list where only that item's price changes. */
  function WithPrice(items: seq<OrderItem>, index: int, parsed: Option<real>): (r: seq<OrderItem>)
    requires 0 <= index < |items|
    ensures |r| == |items|
    ensures forall j :: 0 <= j < |r| && j != index ==> r[j] == items[j]
    ensures r[index].price == PriceOrZero(parsed)
    ensures r[index].name == items[index].name && r[index].quantity == items[index].quantity
    ensures r[index].purchased == items[index].purchased
  {
    items[index := items[index].(price := PriceOrZero(parsed))]
  }

  /** A purchased toggle on row `index`: a copy of the list where only that item's flag changes. */
  function WithPurchased(items: seq<OrderItem>, index: int, checked: bool): (r: seq<OrderItem>)
    requires 0 <= index < |items|
    ensures |r| == |items|
    ensures forall j :: 0 <= j < |r| && j != index ==> r[j] == items[j]
    ensures r[index].purchased == checked
    ensures r[index].name == items[index].name && r[index].quantity == items[index].quantity
    ensures r[index].price == items[index].price
  {
    items[index := items[index].(purchased := checked)]
  }

  /**
   * The item validator after a price edit: a valid list stays valid exactly
   * when the typed price is not negative, and a toggle never changes validity.
   */
  lemma EditsKeepItemsValid(items: seq<OrderItem>, index: int, parsed: Option<real>, checked: bool)
    requires 0 <= index < |items|
    requires AllValidItems(items)
    ensures AllValidItems(WithPrice(items, index, parsed)) <==> PriceOrZero(parsed) >= 0.0
    ensures AllValidItems(WithPurchased(items, index, checked))
  {
    var r := WithPrice(items, index, parsed);
    if AllValidItems(r) {
      assert IsValidItem(r[index]);
    }
    var t := WithPurchased(items, index, checked);
    forall j | 0 <= j < |t|
      ensures IsValidItem(t[j])
    {
      assert IsValidItem(items[j]);
    }
  }

  /** Editing the price twice keeps only the second value; toggling back restores the list. */
  lemma EditsOverwrite(items: seq<OrderItem>, index: int, p1: Option<real>, p2: Option<real>)
    requires 0 <= index < |items|
    ensures WithPrice(WithPrice(items, index, p1), index, p2) == WithPrice(items, index, p2)
    ensures WithPurchased(WithPurchased(items, index, !items[index].purchased), index, items[index].purchased) == items
  {
    var once := WithPurchased(items, index, !items[index].purchased);
    var back := WithPurchased(once, index, items[index].purchased);
    assert back[index] == items[index];
    assert forall j :: 0 <= j < |items| ==> back[j] == items[j];
  }
}
