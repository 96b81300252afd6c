/**
 * The live-update registry: a process-wide map from user id to that user's
 * live connection, filled when a connection opens and emptied for the user
 * when a connection closes or fails, and the best-effort send that pushes an
 * order update to one user.
 *
 * A socket is an opaque handle with its ready state; the model records every
 * send in `outbox`, in order, in place of writing to the socket.
 */
module Clients {
  import opened Wrappers
  import opened Schema

  /** The only message type the server sends. */
  const OrderUpdatedType: string := "ORDER_UPDATED"

  /** The `{ type, order }` object sent on a connection. */
  datatype Message = Message(kind: string, order: Order)

  function OrderUpdated(o: Order): (m: Message)
    ensures m.kind == OrderUpdatedType && m.order == o
  {
    Message(OrderUpdatedType, o)
  }

  /** A live connection: an opaque handle and whether its ready state is OPEN. */
  datatype Socket = Socket(handle: int, open: bool)

  /** One message written to one connection. */
  datatype Delivery = Delivery(userId: int, socket: Socket, message: Message)

  /** JavaScript truthiness of an optional numeric id: present and not 0. */
  predicate Truthy(id: Option<int>) {
    id.Some? && id.value != 0
  }

  class ClientRegistry {
    var clients: map<int, Socket>
    var outbox: seq<Delivery>

    constructor ()
      ensures clients == map[] && outbox == []
    {
      clients, outbox := map[], [];
    }

    /** A send to this user goes out: an entry exists and its socket is OPEN. */
    predicate Reachable(userId: int)
      reads this
    {
      userId in clients && clients[userId].open
    }

    /** What one notification to `userId` writes: at most one message, to the registered socket. */
    function DeliveriesTo(userId: int, m: Message): (r: seq<Delivery>)
      reads this
      ensures |r| <= 1
      ensures |r| == 1 <==> Reachable(userId)
      ensures forall d :: d in r ==> d.userId == userId && d.message == m && d.socket == clients[userId]
    {
      if Reachable(userId) then [Delivery(userId, clients[userId], m)] else []
    }

    /**
     * A connection opened. When the session carries a (truthy) user id, the
     * connection replaces whatever entry that user had; otherwise nothing is
     * registered and no close or error handler is attached.
     */
    method OnConnection(sessionUser: Option<int>, socket: Socket) returns (registered: bool)
      modifies this
      ensures registered <==> Truthy(sessionUser)
      ensures clients == if registered then old(clients)[sessionUser.value := socket] else old(clients)
      ensures outbox == old(outbox)
    {
      registered := Truthy(sessionUser);
      if registered {
        clients := clients[sessionUser.value := socket];
      }
    }

    /**
     * A registered connection closed. The handler deletes the user's entry
     * whichever connection it now holds, so closing a replaced connection
     * also drops the newer one.
     */
    method OnClose(userId: int)
      modifies this
      ensures clients == old(clients) - {userId}
      ensures outbox == old(outbox)
    {
      clients := clients - {userId};
    }

    /**
     * The close handler with the evidently intended ownership check: the
     * entry is removed only when it still holds the closing connection.
     */
    method OnCloseOwn(userId: int, socket: Socket)
      modifies this
      ensures clients == CloseOwn(old(clients), userId, socket)
      ensures outbox == old(outbox)
    {
      if userId in clients && clients[userId].handle == socket.handle {
        clients := clients - {userId};
      }
    }

    /** A registered connection failed: same effect as a close. */
    method OnError(userId: int)
      modifies this
      ensures clients == old(clients) - {userId}
      ensures outbox == old(outbox)
    {
      clients := clients - {userId};
    }

    /**
     * Sends the message when the user has an entry whose socket is OPEN and
     * does nothing otherwise; it never fails towards its caller.
     */
    method NotifyUser(userId: int, m: Message)
      modifies this`outbox
      ensures outbox == old(outbox) + DeliveriesTo(userId, m)
    {
      var client := if userId in clients then Some(clients[userId]) else None;
      if client.Some? && client.value.open {
        outbox := outbox + [Delivery(userId, client.value, m)];
      }
    }
  }

  /**
   * As written: user `u` connects on `older`, connects again on `newer` (which
   * replaces it and is open, so `u` is reachable), and then `older` closes.
   * Its close handler deletes `u`'s entry, so `u` has no entry any more and a
   * notification to `u` reaches no one, although `newer` is still open.
   */
  method StaleCloseDropsNewerConnection(u: int, older: Socket, newer: Socket, m: Message)
    returns (registry: ClientRegistry)
    requires u != 0 && newer.open && older.handle != newer.handle
    ensures u !in registry.clients
    ensures registry.DeliveriesTo(u, m) == [] && registry.outbox == []
  {
    registry := new ClientRegistry();
    var _ := registry.OnConnection(Some(u), older);
    var _ := registry.OnConnection(Some(u), newer);
    assert registry.Reachable(u);
    registry.OnClose(u);
  }

  /** The registry after a close handler that removes the entry only when it still holds the closing connection. */
  function CloseOwn(clients: map<int, Socket>, userId: int, socket: Socket): (r: map<int, Socket>)
    ensures userId in clients && clients[userId].handle == socket.handle ==> r == clients - {userId}
    ensures !(userId in clients && clients[userId].handle == socket.handle) ==> r == clients
  {
    if userId in clients && clients[userId].handle == socket.handle then clients - {userId} else clients
  }

  /**
   * With the ownership check, a stale close leaves the newer connection
   * registered, and a close of the current connection still removes it.
   */
  lemma CloseOwnKeepsNewerEntry(clients: map<int, Socket>, userId: int, older: Socket, newer: Socket)
    requires older.handle != newer.handle
    ensures var afterConnect := clients[userId := newer];
      && CloseOwn(afterConnect, userId, older) == afterConnect
      && userId !in CloseOwn(afterConnect, userId, newer)
  {
  }

  /**
   * The same sequence with the ownership check: the stale close of `older`
   * leaves `newer` registered, and a notification to `u` reaches it.
   */
  method OwnCloseKeepsNewerConnection(u: int, older: Socket, newer: Socket, m: Message)
    returns (registry: ClientRegistry)
    requires u != 0 && newer.open && older.handle != newer.handle
    ensures u in registry.clients && registry.clients[u] == newer
    ensures registry.DeliveriesTo(u, m) == [Delivery(u, newer, m)] && registry.outbox == []
  {
    registry := new ClientRegistry();
    var _ := registry.OnConnection(Some(u), older);
    var _ := registry.OnConnection(Some(u), newer);
    registry.OnCloseOwn(u, older);
  }
}
