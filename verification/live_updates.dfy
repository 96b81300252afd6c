/**
 * The browser side of the live updates: on an ORDER_UPDATED message the
 * cached customer order list is rewritten, replacing each cached order that
 * has the pushed order's id by the pushed order.
 *
 * The query cache is a map from query key to the cached list; a key that is
 * absent is a query with no data yet.
 */
module LiveUpdates {
  import opened Wrappers
  import opened Schema
  import opened Clients

  /** The query key of the customer's order list, the only entry a message updates. */
  const CustomerOrdersKey: string := "/api/orders/customer"

  /** `list.map(o => o.id === order.id ? order : o)`. */
  function ReplaceById(list: seq<Order>, order: Order): (r: seq<Order>)
    ensures |r| == |list|
    ensures forall i :: 0 <= i < |r| ==> r[i].id == list[i].id
  {
    if list == [] then []
    else
      var last := list[|list| - 1];
      ReplaceById(list[..|list| - 1], order) + [if last.id == order.id then order else last]
  }

  /** Entries with the pushed order's id become the pushed order; all others stay as they were. */
  lemma {:induction false} ReplaceByIdEntries(list: seq<Order>, order: Order)
    ensures forall i :: 0 <= i < |list| && list[i].id == order.id ==> ReplaceById(list, order)[i] == order
    ensures forall i :: 0 <= i < |list| && list[i].id != order.id ==> ReplaceById(list, order)[i] == list[i]
  {
    if list != [] {
      ReplaceByIdEntries(list[..|list| - 1], order);
    }
  }

  /** An order whose id is not cached is not added: the list is returned as it was. */
  lemma NotCachedNotAdded(list: seq<Order>, order: Order)
    requires forall i :: 0 <= i < |list| ==> list[i].id != order.id
    ensures ReplaceById(list, order) == list
  {
    ReplaceByIdEntries(list, order);
  }

  /** Applying the same update twice is the same as applying it once. */
  lemma ReplaceByIdIdempotent(list: seq<Order>, order: Order)
    ensures ReplaceById(ReplaceById(list, order), order) == ReplaceById(list, order)
  {
    var once := ReplaceById(list, order);
    ReplaceByIdEntries(list, order);
    ReplaceByIdEntries(once, order);
  }

  /** After the update, no cached entry with the pushed id holds anything but the pushed order. */
  lemma NoStaleCopy(list: seq<Order>, order: Order)
    ensures forall x :: x in ReplaceById(list, order) && x.id == order.id ==> x == order
    ensures order in ReplaceById(list, order) <==> order in list || exists i :: 0 <= i < |list| && list[i].id == order.id
  {
    var r := ReplaceById(list, order);
    ReplaceByIdEntries(list, order);
    forall x | x in r && x.id == order.id
      ensures x == order
    {
      var i :| 0 <= i < |r| && r[i] == x;
    }
    if order in list {
      var i :| 0 <= i < |list| && list[i] == order;
      assert r[i] == order;
    }
    if exists i :: 0 <= i < |list| && list[i].id == order.id {
      var i :| 0 <= i < |list| && list[i].id == order.id;
      assert r[i] == order;
    }
    if order in r {
      var i :| 0 <= i < |r| && r[i] == order;
      assert list[i].id == order.id;
    }
  }

  /**
   * The updater passed to the cache: with no cached list it stores the
   * one-element list of the pushed order; otherwise it replaces by id.
   */
  function UpdateCachedList(cached: Option<seq<Order>>, order: Order): (r: seq<Order>)
    ensures cached.None? ==> r == [order]
    ensures cached.Some? ==> r == ReplaceById(cached.value, order)
  {
    match cached
    case None => [order]
    case Some(list) => ReplaceById(list, order)
  }

  /** The cache after one message: only an ORDER_UPDATED message, and only the customer list entry, change it. */
  function OnMessage(cache: map<string, seq<Order>>, m: Message): (r: map<string, seq<Order>>)
    ensures m.kind != OrderUpdatedType ==> r == cache
    ensures m.kind == OrderUpdatedType ==> r.Keys == cache.Keys + {CustomerOrdersKey}
    ensures forall k :: k in cache && k != CustomerOrdersKey ==> k in r && r[k] == cache[k]
    ensures m.kind == OrderUpdatedType ==>
      r[CustomerOrdersKey] == UpdateCachedList(if CustomerOrdersKey in cache then Some(cache[CustomerOrdersKey]) else None, m.order)
  {
    if m.kind == OrderUpdatedType then
      var cached := if CustomerOrdersKey in cache then Some(cache[CustomerOrdersKey]) else None;
      cache[CustomerOrdersKey := UpdateCachedList(cached, m.order)]
    else cache
  }

  /**
   * What the server sends, the browser applies: after the ORDER_UPDATED push
   * for `o`, the customer list holds `o` wherever it held an order with `o`'s id.
   */
  lemma PushedOrderIsShown(cache: map<string, seq<Order>>, o: Order)
    requires CustomerOrdersKey in cache
    ensures var list := OnMessage(cache, OrderUpdated(o))[CustomerOrdersKey];
      && |list| == |cache[CustomerOrdersKey]|
      && forall i :: 0 <= i < |list| && cache[CustomerOrdersKey][i].id == o.id ==> list[i] == o
  {
    ReplaceByIdEntries(cache[CustomerOrdersKey], o);
  }
}
