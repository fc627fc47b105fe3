/** The staff dashboard of staff-dashboard.js. It reads its order list from
    the browser's localStorage (orders carrying `id` and `time`, not the
    server's `orderId` and `timestamp`), counts orders per status, splits
    them into active and completed lists, advances one order along a fixed
    three-step flow, and clears an order from the list. */
module StaffDashboard {
  import opened Wrappers
  import opened Search

  /** An order as the dashboard reads it. `id` is `None` for a record that
      has no `id` property, such as one in the server's shape. */
  datatype DashOrder = DashOrder(id: Option<int>, status: string, time: int, total: int)

  /** `getNextStatus`: the `statusFlow` table pending → preparing → ready →
      completed, and null for every other status, `accepted` and `completed`
      included. */
  function NextStatus(current: string): (r: Option<string>)
    ensures r == Some("preparing") <==> current == "pending"
    ensures r == Some("ready") <==> current == "preparing"
    ensures r == Some("completed") <==> current == "ready"
    ensures r.None? <==> current != "pending" && current != "preparing" && current != "ready"
  {
    if current == "pending" then Some("preparing")
    else if current == "preparing" then Some("ready")
    else if current == "ready" then Some("completed")
    else None
  }

  /** The status an order has after one "Mark as ..." click: the next status,
      or the same one when there is none. A click changes the status exactly
      when the flow has a next one: no status leads to itself. */
  function Advance(status: string): (r: string)
    ensures r == status <==> NextStatus(status).None?
  {
    NextStatus(status).GetOr(status)
  }

  /** Three clicks bring every status to one the flow does not move. */
  lemma ThreeAdvancesSettle(status: string)
    ensures NextStatus(Advance(Advance(Advance(status)))).None?
  {
    if status == "pending" {
      assert Advance(status) == "preparing";
      assert Advance("preparing") == "ready";
      assert Advance("ready") == "completed";
    } else if status == "preparing" {
      assert Advance(status) == "ready";
      assert Advance("ready") == "completed";
      assert Advance("completed") == "completed";
    } else if status == "ready" {
      assert Advance(status) == "completed";
      assert Advance("completed") == "completed";
    } else {
      assert Advance(status) == status;
    }
  }

  /** The status after `n` clicks. From three clicks on, the status has
      settled: the flow offers no further step. */
  function AdvanceTimes(status: string, n: nat): (r: string)
    ensures n >= 3 ==> NextStatus(r).None?
    decreases n
  {
    if n == 0 then status
    else if n == 3 then
      ThreeAdvancesSettle(status);
      assert AdvanceTimes(Advance(status), 2) == Advance(Advance(Advance(status)));
      AdvanceTimes(Advance(status), n - 1)
    else AdvanceTimes(Advance(status), n - 1)
  }

  /** A status with no next status is final: `completed`, but also
      `accepted` (a status only the server sets) and any unknown string stay
      as they are however often the order is advanced. */
  lemma {:induction false} NoNextStatusIsFinal(status: string, n: nat)
    requires NextStatus(status).None?
    ensures AdvanceTimes(status, n) == status
  {
    if n > 0 {
      NoNextStatusIsFinal(status, n - 1);
    }
  }

  /** A pending order is completed after exactly three advances, and stays so. */
  lemma PendingCompletesInThreeSteps(n: nat)
    ensures AdvanceTimes("pending", n) == "completed" <==> n >= 3
  {
    assert Advance("pending") == "preparing";
    assert Advance("preparing") == "ready";
    assert Advance("ready") == "completed";
    if n >= 3 {
      assert AdvanceTimes("pending", n) == AdvanceTimes("preparing", n - 1);
      assert AdvanceTimes("preparing", n - 1) == AdvanceTimes("ready", n - 2);
      assert AdvanceTimes("ready", n - 2) == AdvanceTimes("completed", n - 3);
      NoNextStatusIsFinal("completed", n - 3);
    } else if n == 2 {
      assert AdvanceTimes("pending", 2) == AdvanceTimes("preparing", 1) == AdvanceTimes("ready", 0);
    } else if n == 1 {
      assert AdvanceTimes("pending", 1) == AdvanceTimes("preparing", 0);
    }
  }

  /** How many orders have a status in `statuses`: one `filter(...).length`. */
  function CountIn(orders: seq<DashOrder>, statuses: set<string>): (r: nat)
    ensures r <= |orders|
  {
    if orders == [] then 0
    else (if orders[0].status in statuses then 1 else 0) + CountIn(orders[1..], statuses)
  }

  /** The four figures `updateStats` shows. */
  datatype Stats = Stats(total: nat, pending: nat, preparing: nat, completed: nat)

  /** The statuses `updateStats` counts in one of its three figures. */
  const Counted: set<string> := {"pending", "preparing", "ready", "completed"}

  /** `updateStats`: the list length; orders pending; orders preparing or
      ready, counted together; orders completed. Orders with any other
      status (`accepted` among them) are in the total and in no other
      figure. */
  function UpdateStats(orders: seq<DashOrder>): (r: Stats)
    ensures r.total == |orders|
    ensures r.pending + r.preparing + r.completed == CountIn(orders, Counted) <= r.total
  {
    CountSplit(orders);
    Stats(|orders|, CountIn(orders, {"pending"}), CountIn(orders, {"preparing", "ready"}),
          CountIn(orders, {"completed"}))
  }

  lemma {:induction false} CountSplit(orders: seq<DashOrder>)
    ensures CountIn(orders, {"pending"}) + CountIn(orders, {"preparing", "ready"}) + CountIn(orders, {"completed"})
      == CountIn(orders, Counted)
  {
    if orders != [] {
      CountSplit(orders[1..]);
    }
  }

  /** An order whose status is outside `statuses` is missing from the count. */
  lemma {:induction false} CountMissesOutside(orders: seq<DashOrder>, statuses: set<string>, k: nat)
    requires k < |orders| && orders[k].status !in statuses
    ensures CountIn(orders, statuses) < |orders|
  {
    if k > 0 {
      CountMissesOutside(orders[1..], statuses, k - 1);
    }
  }

  /** When some order is `accepted` (or has any status outside the flow),
      the three figures add up to less than the total. */
  lemma StatsMissUncounted(orders: seq<DashOrder>, k: nat)
    requires k < |orders| && orders[k].status !in Counted
    ensures var s := UpdateStats(orders); s.pending + s.preparing + s.completed < s.total
  {
    CountMissesOutside(orders, Counted, k);
  }

  /** `orders.filter(o => o.status !== 'completed')` in `renderActiveOrders`. */
  function ActiveOrders(orders: seq<DashOrder>): (r: seq<DashOrder>)
    ensures forall o :: o in r <==> o in orders && o.status != "completed"
  {
    if orders == [] then []
    else if orders[0].status != "completed" then [orders[0]] + ActiveOrders(orders[1..])
    else ActiveOrders(orders[1..])
  }

  /** `orders.filter(o => o.status === 'completed')` in `renderCompletedOrders`. */
  function CompletedOrders(orders: seq<DashOrder>): (r: seq<DashOrder>)
    ensures forall o :: o in r <==> o in orders && o.status == "completed"
  {
    if orders == [] then []
    else if orders[0].status == "completed" then [orders[0]] + CompletedOrders(orders[1..])
    else CompletedOrders(orders[1..])
  }

  /** The two lists split the orders: together they hold every order exactly
      as often as the list does, and the completed list is as long as the
      completed figure. */
  lemma {:induction false} ActiveAndCompletedPartition(orders: seq<DashOrder>)
    ensures multiset(ActiveOrders(orders)) + multiset(CompletedOrders(orders)) == multiset(orders)
    ensures |ActiveOrders(orders)| + |CompletedOrders(orders)| == |orders|
    ensures |CompletedOrders(orders)| == UpdateStats(orders).completed
  {
    if orders != [] {
      ActiveAndCompletedPartition(orders[1..]);
      assert orders == [orders[0]] + orders[1..];
    }
  }

  /** `orders.findIndex(o => o.id === orderId)`. The page calls with
      `undefined` (`None`) as well as with a number: the inline handler
      renders `${order.id}` of a record without `id` as `undefined`, and the
      second click handler passes `this.dataset.orderId`, which the button
      never sets. `undefined === undefined`, so `None` finds the first record
      without `id`. */
  function IndexOfDashOrder(orders: seq<DashOrder>, orderId: Option<int>): (r: Option<nat>)
    ensures r.Some? ==> r.value < |orders| && orders[r.value].id == orderId
    ensures r.Some? ==> forall j :: 0 <= j < r.value ==> orders[j].id != orderId
    ensures r.None? <==> forall j :: 0 <= j < |orders| ==> orders[j].id != orderId
  {
    FindIndex(orders, (o: DashOrder) => o.id == orderId)
  }

  /** The list after `updateOrderStatus(orderId)`: the first order with that
      id moves to its next status; the list is unchanged when no order has
      the id or the order has no next status. Nothing else changes. */
  function Advanced(orders: seq<DashOrder>, orderId: Option<int>): (r: seq<DashOrder>)
    ensures |r| == |orders|
    ensures IndexOfDashOrder(orders, orderId).None? ==> r == orders
    ensures IndexOfDashOrder(orders, orderId).Some? ==>
      var i := IndexOfDashOrder(orders, orderId).value;
      && r[i] == orders[i].(status := Advance(orders[i].status))
      && forall j :: 0 <= j < |orders| && j != i ==> r[j] == orders[j]
  {
    match IndexOfDashOrder(orders, orderId)
    case None => orders
    case Some(i) =>
      match NextStatus(orders[i].status)
      case None => orders
      case Some(next) => orders[i := orders[i].(status := next)]
  }

  /** `orders.filter(o => o.id !== orderId)` in `deleteOrder`: every record
      whose `id` differs is kept as often as it occurs, every other one goes. */
  function Without(orders: seq<DashOrder>, orderId: Option<int>): (r: seq<DashOrder>)
    ensures forall o :: o in r <==> o in orders && o.id != orderId
    ensures forall o :: multiset(r)[o] == if o.id != orderId then multiset(orders)[o] else 0
    ensures |r| <= |orders|
  {
    if orders == [] then []
    else
      assert orders == [orders[0]] + orders[1..];
      if orders[0].id != orderId then [orders[0]] + Without(orders[1..], orderId)
      else Without(orders[1..], orderId)
  }

  /** `deleteOrder(undefined)` clears every record that has no `id`, active
      ones included, and keeps every record that has one. */
  lemma {:induction false} DeleteUndefinedClearsIdless(orders: seq<DashOrder>, k: nat)
    requires k < |orders| && orders[k].id.None?
    ensures forall o :: o in Without(orders, None) <==> o in orders && o.id.Some?
    ensures |Without(orders, None)| < |orders|
  {
    var rest := Without(orders[1..], None);
    if k == 0 {
      assert Without(orders, None) == rest;
    } else {
      DeleteUndefinedClearsIdless(orders[1..], k - 1);
      assert |Without(orders, None)| <= 1 + |rest|;
    }
  }

  /** `sub` is `orders` with some elements left out, the rest in their relative order. */
  ghost predicate IsSubsequence(sub: seq<DashOrder>, orders: seq<DashOrder>)
    decreases |orders|
  {
    if sub == [] then true
    else if orders == [] then false
    else if sub[0] == orders[0] then IsSubsequence(sub[1..], orders[1..])
    else IsSubsequence(sub, orders[1..])
  }

  /** Deleting keeps the other orders in their original relative order, and
      deleting an id no order has changes nothing. */
  lemma {:induction false} WithoutKeepsOrder(orders: seq<DashOrder>, orderId: Option<int>)
    ensures IsSubsequence(Without(orders, orderId), orders)
    ensures (forall o :: o in orders ==> o.id != orderId) ==> Without(orders, orderId) == orders
  {
    if orders != [] {
      WithoutKeepsOrder(orders[1..], orderId);
      var rest := Without(orders[1..], orderId);
      if orders[0].id == orderId {
        IsSubsequenceSkip(rest, orders);
      }
    }
  }

  /** A subsequence of a list's tail is a subsequence of the list. */
  lemma {:induction false} IsSubsequenceSkip(sub: seq<DashOrder>, orders: seq<DashOrder>)
    requires orders != [] && IsSubsequence(sub, orders[1..])
    ensures IsSubsequence(sub, orders)
    decreases |orders|, 0
  {
    if sub != [] && sub[0] == orders[0] {
      IsSubsequenceDropHead(sub, orders[1..]);
    }
  }

  /** Leaving out the first element of a subsequence keeps it one. */
  lemma {:induction false} IsSubsequenceDropHead(sub: seq<DashOrder>, orders: seq<DashOrder>)
    requires sub != [] && IsSubsequence(sub, orders)
    ensures IsSubsequence(sub[1..], orders)
    decreases |orders|, 1
  {
    if sub[0] == orders[0] {
      IsSubsequenceSkip(sub[1..], orders);
    } else {
      IsSubsequenceDropHead(sub, orders[1..]);
      IsSubsequenceSkip(sub[1..], orders);
    }
  }

  /** The `orders` entry of localStorage, which the dashboard reads, changes
      and writes back. */
  class OrderBoard {
    var stored: seq<DashOrder>

    constructor (orders: seq<DashOrder>)
      ensures stored == orders
    {
      stored := orders;
    }

    /** `loadOrders`: the figures and the two lists the page shows. */
    method LoadOrders() returns (stats: Stats, active: seq<DashOrder>, completed: seq<DashOrder>)
      ensures stats.total == |stored| == |active| + |completed|
      ensures multiset(active) + multiset(completed) == multiset(stored)
      ensures forall o :: o in active ==> o.status != "completed"
      ensures forall o :: o in completed ==> o.status == "completed"
      ensures |completed| == stats.completed
      ensures stats == UpdateStats(stored)
      ensures active == ActiveOrders(stored) && completed == CompletedOrders(stored)
    {
      ActiveAndCompletedPartition(stored);
      stats := UpdateStats(stored);
      active := ActiveOrders(stored);
      completed := CompletedOrders(stored);
    }

    /** `updateOrderStatus(orderId)`: the found order's status is overwritten in place. */
    method UpdateOrderStatus(orderId: Option<int>)
      modifies this
      ensures stored == Advanced(old(stored), orderId)
    {
      var index := IndexOfDashOrder(stored, orderId);
      if index.Some? {
        var i := index.value;
        var next := NextStatus(stored[i].status);
        if next.Some? {
          stored := stored[i := stored[i].(status := next.value)];
        }
      }
    }

    /** `deleteOrder(orderId)` once the staff member has confirmed. */
    method DeleteOrder(orderId: Option<int>)
      modifies this
      ensures stored == Without(old(stored), orderId)
    {
      stored := Without(stored, orderId);
    }
  }
}
