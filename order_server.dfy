/** The order API of server.js in its in-memory fallback mode: a module-level
    list of orders, an id counter, the validation each handler performs, and
    the Socket.IO broadcast each successful change emits (kept here as an
    append-only event log). */
module OrderServer {
  import opened Wrappers
  import opened LineItems
  import opened Search

  /** The five values the order status may take. */
  datatype Status = Pending | Accepted | Preparing | Ready | Completed

  /** The wire name of a status, as stored and compared by the handlers. */
  function StatusName(s: Status): string {
    match s
    case Pending => "pending"
    case Accepted => "accepted"
    case Preparing => "preparing"
    case Ready => "ready"
    case Completed => "completed"
  }

  /** The list a status PATCH is checked against. */
  const ValidStatuses: seq<string> := ["pending", "accepted", "preparing", "ready", "completed"]

  /** `validStatuses.includes(status)`, giving back the status the name denotes. */
  function ParseStatus(name: string): (r: Option<Status>)
    ensures r.Some? <==> name in ValidStatuses
    ensures forall s :: r == Some(s) <==> name == StatusName(s)
  {
    if name == "pending" then Some(Pending)
    else if name == "accepted" then Some(Accepted)
    else if name == "preparing" then Some(Preparing)
    else if name == "ready" then Some(Ready)
    else if name == "completed" then Some(Completed)
    else None
  }

  /** A stored order. `timestamp`, `createdAt` and `updatedAt` are clock
      readings in milliseconds. */
  datatype Order = Order(
    orderId: int,
    items: seq<LineItem>,
    total: int,
    status: Status,
    timestamp: int,
    createdAt: int,
    updatedAt: int)

  /** What `io.emit` broadcasts to every connected staff client. */
  datatype Event =
    | NewOrder(order: Order)
    | OrderUpdated(order: Order)
    | OrderDeleted(orderId: int)

  /** The reasons a request is answered with 400. */
  datatype Rejection = EmptyOrder | InvalidTotal | InvalidStatus

  /** The outcome of a request, one constructor per kind of JSON reply. */
  datatype Response =
    | Created(order: Order)
    | Found(order: Order)
    | Updated(order: Order)
    | Deleted
    | Listed(orders: seq<Order>)
    | BadRequest(reason: Rejection)
    | NotFound

  /** The HTTP status code each kind of reply is sent with. */
  function HttpStatus(r: Response): int {
    match r
    case Created(_) => 201
    case BadRequest(_) => 400
    case NotFound => 404
    case _ => 200
  }

  /** The checks of a POST body, in the handler's order: `items` missing or
      empty first, then `total` missing, zero or negative. */
  function ValidateCreate(items: Option<seq<LineItem>>, total: Option<int>): (r: Option<Rejection>)
    ensures r == None <==> items.Some? && items.value != [] && total.Some? && total.value > 0
    ensures r == Some(EmptyOrder) <==> items.None? || items.value == []
    ensures r == Some(InvalidTotal) <==> items.Some? && items.value != [] && (total.None? || total.value <= 0)
  {
    if items.None? || |items.value| == 0 then Some(EmptyOrder)
    else if total.None? || total.value <= 0 then Some(InvalidTotal)
    else None
  }

  /** `orders.findIndex(o => o.orderId === orderId)`, which `find` shares. */
  function IndexOfOrder(orders: seq<Order>, orderId: int): (r: Option<nat>)
    ensures r.Some? ==> r.value < |orders| && orders[r.value].orderId == orderId
    ensures r.Some? ==> forall j :: 0 <= j < r.value ==> orders[j].orderId != orderId
    ensures r.None? <==> forall j :: 0 <= j < |orders| ==> orders[j].orderId != orderId
  {
    FindIndex(orders, (o: Order) => o.orderId == orderId)
  }

  /** No two stored orders share an id. */
  ghost predicate DistinctIds(orders: seq<Order>) {
    forall i, j :: 0 <= i < j < |orders| ==> orders[i].orderId != orders[j].orderId
  }

  /** `orders.splice(index, 1)`: the list without position `i`, the rest in
      their original relative order. */
  function RemoveAt(orders: seq<Order>, i: nat): (r: seq<Order>)
    requires i < |orders|
    ensures |r| == |orders| - 1
    ensures forall j :: 0 <= j < i ==> r[j] == orders[j]
    ensures forall j :: i <= j < |r| ==> r[j] == orders[j + 1]
  {
    orders[..i] + orders[i + 1..]
  }

  /** Deleting the order found by id leaves no order with that id behind when
      ids are distinct, and keeps them distinct. */
  lemma DeleteRemovesId(orders: seq<Order>, orderId: int)
    requires DistinctIds(orders)
    requires IndexOfOrder(orders, orderId).Some?
    ensures var r := RemoveAt(orders, IndexOfOrder(orders, orderId).value);
      DistinctIds(r) && forall o :: o in r ==> o.orderId != orderId
  {
    var i := IndexOfOrder(orders, orderId).value;
    var r := RemoveAt(orders, i);
    forall o | o in r ensures o.orderId != orderId {
      var k :| 0 <= k < |r| && r[k] == o;
      if k >= i { assert r[k] == orders[k + 1]; }
    }
  }

  /** Newest first: timestamps never increase along the list. */
  predicate NewestFirst(orders: seq<Order>) {
    forall i, j :: 0 <= i < j < |orders| ==> orders[i].timestamp >= orders[j].timestamp
  }

  /** One insertion step of the stable sort `sort((a, b) => b.timestamp - a.timestamp)`:
      `x`, which came first, goes before every order no newer than itself. */
  function InsertByNewest(x: Order, s: seq<Order>): (r: seq<Order>)
    ensures multiset(r) == multiset(s) + multiset{x}
    ensures forall o :: o in r ==> o == x || o in s
  {
    if s == [] then [x]
    else if s[0].timestamp <= x.timestamp then [x] + s
    else
      assert s == [s[0]] + s[1..];
      [s[0]] + InsertByNewest(x, s[1..])
  }

  /** Inserting into a newest-first list keeps it newest first. */
  lemma {:induction false} InsertKeepsNewestFirst(x: Order, s: seq<Order>)
    requires NewestFirst(s)
    ensures NewestFirst(InsertByNewest(x, s))
  {
    if s != [] && s[0].timestamp > x.timestamp {
      var rest := InsertByNewest(x, s[1..]);
      InsertKeepsNewestFirst(x, s[1..]);
      var r := [s[0]] + rest;
      assert r == InsertByNewest(x, s);
      forall j | 0 < j < |r| ensures r[0].timestamp >= r[j].timestamp {
        assert r[j] in rest;
      }
    }
  }

  /** The stable sort by timestamp, newest first, that the listing handlers
      apply: a rearrangement of its input, in order. */
  function SortByNewest(s: seq<Order>): (r: seq<Order>)
    ensures multiset(r) == multiset(s)
    ensures NewestFirst(r)
  {
    if s == [] then []
    else
      assert s == [s[0]] + s[1..];
      var rest := SortByNewest(s[1..]);
      InsertKeepsNewestFirst(s[0], rest);
      InsertByNewest(s[0], rest)
  }

  lemma {:induction false} InsertKeepsDistinct(x: Order, s: seq<Order>)
    requires DistinctIds(s)
    requires forall o :: o in s ==> o.orderId != x.orderId
    ensures DistinctIds(InsertByNewest(x, s))
  {
    if s != [] && s[0].timestamp > x.timestamp {
      InsertKeepsDistinct(x, s[1..]);
      var r := [s[0]] + InsertByNewest(x, s[1..]);
      assert r == InsertByNewest(x, s);
      forall j | 0 < j < |r| ensures r[0].orderId != r[j].orderId {
        assert r[j] in InsertByNewest(x, s[1..]);
      }
    }
  }

  /** Sorting never makes two stored orders share an id. */
  lemma {:induction false} SortKeepsDistinct(s: seq<Order>)
    requires DistinctIds(s)
    ensures DistinctIds(SortByNewest(s))
  {
    if s != [] {
      SortKeepsDistinct(s[1..]);
      var sorted := SortByNewest(s[1..]);
      assert forall o :: o in sorted ==> o in multiset(s[1..]);
      InsertKeepsDistinct(s[0], sorted);
    }
  }

  /** `orders.filter(o => o.status === status)`. */
  function WithStatus(orders: seq<Order>, status: string): (r: seq<Order>)
    ensures forall o :: o in r <==> o in orders && StatusName(o.status) == status
    ensures forall o :: multiset(r)[o] == if StatusName(o.status) == status then multiset(orders)[o] else 0
    ensures |r| <= |orders|
  {
    if orders == [] then []
    else
      assert orders == [orders[0]] + orders[1..];
      if StatusName(orders[0].status) == status then [orders[0]] + WithStatus(orders[1..], status)
      else WithStatus(orders[1..], status)
  }

  /** The in-memory order store: `orders` and `nextOrderId` of server.js,
      with `events` recording every `io.emit` broadcast in order and the
      ghost `issued` recording every id the counter has handed out. */
  class OrderStore {
    var orders: seq<Order>
    var nextOrderId: int
    var events: seq<Event>
    ghost var issued: seq<int>

    /** The counter has issued exactly 1, 2, ..., nextOrderId - 1, and every
        stored order carries a distinct id among them. */
    ghost predicate Valid()
      reads this
    {
      && nextOrderId >= 1
      && |issued| == nextOrderId - 1
      && (forall k :: 0 <= k < |issued| ==> issued[k] == k + 1)
      && (forall i :: 0 <= i < |orders| ==> 1 <= orders[i].orderId < nextOrderId)
      && DistinctIds(orders)
    }

    constructor ()
      ensures Valid()
      ensures orders == [] && nextOrderId == 1 && events == [] && issued == []
    {
      orders := [];
      nextOrderId := 1;
      events := [];
      issued := [];
    }

    /** `getNextOrderId` without a database: `nextOrderId++`. The id handed
        out is larger than every id issued before it. */
    method GetNextOrderId() returns (id: int)
      requires Valid()
      modifies this
      ensures id == old(nextOrderId) && nextOrderId == id + 1
      ensures issued == old(issued) + [id]
      ensures forall k :: 0 <= k < |old(issued)| ==> old(issued)[k] < id
      ensures orders == old(orders) && events == old(events)
      ensures Valid()
    {
      id := nextOrderId;
      nextOrderId := nextOrderId + 1;
      issued := issued + [id];
    }

    /** POST /api/orders. Validation comes before the id is taken, so a
        rejected request changes nothing at all. */
    method CreateOrder(items: Option<seq<LineItem>>, total: Option<int>, now: int) returns (r: Response)
      requires Valid()
      modifies this
      ensures Valid()
      ensures HttpStatus(r) == if ValidateCreate(items, total).Some? then 400 else 201
      ensures ValidateCreate(items, total).Some? ==>
        && r == BadRequest(ValidateCreate(items, total).value)
        && orders == old(orders) && nextOrderId == old(nextOrderId)
        && events == old(events) && issued == old(issued)
      ensures ValidateCreate(items, total).None? ==>
        var o := Order(old(nextOrderId), items.value, total.value, Pending, now, now, now);
        && r == Created(o)
        && orders == old(orders) + [o]
        && nextOrderId == old(nextOrderId) + 1
        && issued == old(issued) + [o.orderId]
        && events == old(events) + [NewOrder(o)]
    {
      var rejection := ValidateCreate(items, total);
      if rejection.Some? {
        return BadRequest(rejection.value);
      }
      var orderId := GetNextOrderId();
      var o := Order(orderId, items.value, total.value, Pending, now, now, now);
      orders := orders + [o];
      events := events + [NewOrder(o)];
      r := Created(o);
    }

    /** GET /api/orders/:orderId. */
    method GetOrder(orderId: int) returns (r: Response)
      ensures r == NotFound <==> forall o :: o in orders ==> o.orderId != orderId
      ensures HttpStatus(r) == if r == NotFound then 404 else 200
      ensures r != NotFound ==> r.Found? && r.order in orders && r.order.orderId == orderId
      ensures r != NotFound ==> r.order == orders[IndexOfOrder(orders, orderId).value]
    {
      var index := IndexOfOrder(orders, orderId);
      if index.None? {
        return NotFound;
      }
      r := Found(orders[index.value]);
    }

    /** PATCH /api/orders/:orderId/status. Any of the five statuses may be
        set, in any direction; the status is checked before the order is
        looked up. */
    method UpdateStatus(orderId: int, status: string, now: int) returns (r: Response)
      requires Valid()
      modifies this
      ensures Valid()
      ensures nextOrderId == old(nextOrderId) && issued == old(issued)
      ensures HttpStatus(r) ==
        if ParseStatus(status).None? then 400
        else if IndexOfOrder(old(orders), orderId).None? then 404
        else 200
      ensures ParseStatus(status).None? ==>
        r == BadRequest(InvalidStatus) && orders == old(orders) && events == old(events)
      ensures ParseStatus(status).Some? && IndexOfOrder(old(orders), orderId).None? ==>
        r == NotFound && orders == old(orders) && events == old(events)
      ensures ParseStatus(status).Some? && IndexOfOrder(old(orders), orderId).Some? ==>
        var i := IndexOfOrder(old(orders), orderId).value;
        var o := old(orders)[i].(status := ParseStatus(status).value, updatedAt := now);
        && StatusName(o.status) == status
        && r == Updated(o)
        && orders == old(orders)[i := o]
        && events == old(events) + [OrderUpdated(o)]
    {
      var parsed := ParseStatus(status);
      if parsed.None? {
        return BadRequest(InvalidStatus);
      }
      var index := IndexOfOrder(orders, orderId);
      if index.None? {
        return NotFound;
      }
      var i := index.value;
      var o := orders[i].(status := parsed.value, updatedAt := now);
      orders := orders[i := o];
      events := events + [OrderUpdated(o)];
      r := Updated(o);
    }

    /** DELETE /api/orders/:orderId: `findIndex`, then `splice`. */
    method DeleteOrder(orderId: int) returns (r: Response)
      requires Valid()
      modifies this
      ensures Valid()
      ensures nextOrderId == old(nextOrderId) && issued == old(issued)
      ensures HttpStatus(r) == if IndexOfOrder(old(orders), orderId).None? then 404 else 200
      ensures IndexOfOrder(old(orders), orderId).None? ==>
        r == NotFound && orders == old(orders) && events == old(events)
      ensures IndexOfOrder(old(orders), orderId).Some? ==>
        && r == Deleted
        && orders == RemoveAt(old(orders), IndexOfOrder(old(orders), orderId).value)
        && (forall o :: o in orders ==> o.orderId != orderId)
        && events == old(events) + [OrderDeleted(orderId)]
    {
      var index := IndexOfOrder(orders, orderId);
      if index.None? {
        return NotFound;
      }
      DeleteRemovesId(orders, orderId);
      orders := RemoveAt(orders, index.value);
      events := events + [OrderDeleted(orderId)];
      r := Deleted;
    }

    /** GET /api/orders, and the `loadOrders` snapshot sent on connection
        and on `requestOrders`: the store is sorted newest first in place
        and returned whole. */
    method ListOrders() returns (r: Response)
      requires Valid()
      modifies this
      ensures Valid()
      ensures orders == SortByNewest(old(orders))
      ensures multiset(orders) == multiset(old(orders)) && NewestFirst(orders)
      ensures r == Listed(orders)
      ensures nextOrderId == old(nextOrderId) && issued == old(issued) && events == old(events)
    {
      SortKeepsDistinct(orders);
      var sorted := SortByNewest(orders);
      forall i | 0 <= i < |sorted| ensures 1 <= sorted[i].orderId < nextOrderId {
        assert sorted[i] in multiset(orders);
      }
      orders := sorted;
      r := Listed(orders);
    }

    /** GET /api/orders/status/:status: a sorted copy of the matching
        orders; the store itself is left as it is. */
    method OrdersByStatus(status: string) returns (r: Response)
      ensures r == Listed(SortByNewest(WithStatus(orders, status)))
      ensures HttpStatus(r) == 200 && NewestFirst(r.orders)
      ensures forall o :: o in r.orders <==> o in orders && StatusName(o.status) == status
      ensures forall o :: multiset(r.orders)[o] == if StatusName(o.status) == status then multiset(orders)[o] else 0
    {
      var matching := WithStatus(orders, status);
      var sorted := SortByNewest(matching);
      assert forall o :: o in sorted <==> o in multiset(matching);
      r := Listed(sorted);
    }
  }

  /** Two orders, a delete, a third order: the third id is 3, so a deleted
      order's id is not handed out again. */
  method IdsAreNotReused(items: seq<LineItem>)
    requires items != []
  {
    var store := new OrderStore();
    var first := store.CreateOrder(Some(items), Some(20), 1000);
    var second := store.CreateOrder(Some(items), Some(30), 2000);
    assert first == Created(store.orders[0]) && first.order.orderId == 1;
    var gone := store.DeleteOrder(1);
    assert gone == Deleted;
    var third := store.CreateOrder(Some(items), Some(40), 3000);
    assert third.Created? && third.order.orderId == 3;
    var rejected := store.CreateOrder(Some([]), Some(40), 4000);
    assert rejected == BadRequest(EmptyOrder) && store.nextOrderId == 4;
  }
}
