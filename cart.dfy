/** The customer cart of script.js: a static menu, the `cart` object mapping
    menu-item ids to quantities, and the sums and line items `placeOrder`
    derives from it. A JavaScript object lists its (non-numeric) keys in
    insertion order, so the cart is kept as a list of entries in that order. */
module Cart {
  import opened Wrappers
  import opened LineItems
  import opened Search
  import OrderServer

  datatype MenuItem = MenuItem(id: string, name: string, price: int)

  /** `menuItems`: id, name and price of every dish, prices in whole rupees. */
  const Menu: seq<MenuItem> := [
    MenuItem("app-1", "parippu Vada", 10),
    MenuItem("app-2", "Pazham Pori", 15),
    MenuItem("app-3", "Prawn Fry", 100),
    MenuItem("app-4", "Ulli Vada", 20),
    MenuItem("main-1", "Kerala Sadhya", 150),
    MenuItem("main-2", "Chicken Biriyani", 200),
    MenuItem("main-3", "Spicy Chicken Curry", 80),
    MenuItem("main-4", "Appam With Stew", 150),
    MenuItem("des-1", "Chocolate Lava Cake", 70),
    MenuItem("des-2", "Palada Payasam", 70),
    MenuItem("bev-1", "Tea", 10),
    MenuItem("bev-2", "Fresh Juices", 20)
  ]

  /** `menuItems.find(i => i.id === itemId)`. The functions below take the
      menu as a parameter; the cart object is created with `Menu`. */
  function FindMenuItem(menu: seq<MenuItem>, itemId: string): (r: Option<MenuItem>)
    ensures r.Some? ==> r.value in menu && r.value.id == itemId
    ensures r.None? <==> forall i :: 0 <= i < |menu| ==> menu[i].id != itemId
    ensures r.Some? ==>
      exists i :: 0 <= i < |menu| && menu[i] == r.value && forall j :: 0 <= j < i ==> menu[j].id != itemId
  {
    match FindIndex(menu, (m: MenuItem) => m.id == itemId)
    case None => None
    case Some(i) => Some(menu[i])
  }

  predicate PricesPositive(menu: seq<MenuItem>) {
    forall i :: 0 <= i < |menu| ==> menu[i].price > 0
  }

  /** Every dish on the menu has a positive price. */
  lemma MenuPricesPositive()
    ensures PricesPositive(Menu)
  {
  }

  predicate OnMenu(menu: seq<MenuItem>, itemId: string) {
    FindMenuItem(menu, itemId).Some?
  }

  /** One key of the cart object and its quantity. */
  datatype CartEntry = CartEntry(itemId: string, quantity: int)

  /** What `addToCart` and `removeFromCart` maintain: each key once, each a
      menu id, each quantity at least 1. */
  ghost predicate WellFormed(menu: seq<MenuItem>, entries: seq<CartEntry>) {
    KeysDistinct(entries) && AllOk(menu, entries)
  }

  ghost predicate AllOk(menu: seq<MenuItem>, entries: seq<CartEntry>) {
    forall i :: 0 <= i < |entries| ==> EntryOk(menu, entries[i])
  }

  /** An object has each key once. */
  ghost predicate KeysDistinct(entries: seq<CartEntry>) {
    forall i, j :: 0 <= i < j < |entries| ==> entries[i].itemId != entries[j].itemId
  }

  ghost predicate EntryOk(menu: seq<MenuItem>, e: CartEntry) {
    e.quantity >= 1 && OnMenu(menu, e.itemId)
  }

  function IndexOfItem(entries: seq<CartEntry>, itemId: string): (r: Option<nat>)
    ensures r.Some? ==> r.value < |entries| && entries[r.value].itemId == itemId
    ensures r.None? <==> forall j :: 0 <= j < |entries| ==> entries[j].itemId != itemId
  {
    FindIndex(entries, (e: CartEntry) => e.itemId == itemId)
  }

  /** The cart as the object it is: item id to quantity. */
  function Contents(entries: seq<CartEntry>): map<string, int> {
    if entries == [] then map[]
    else
      var last := entries[|entries| - 1];
      Contents(entries[..|entries| - 1])[last.itemId := last.quantity]
  }

  /** `cart[itemId] || 0`: the quantity of an item, 0 when it is not in the
      cart, and otherwise the quantity of its one entry. */
  ghost function Quantity(entries: seq<CartEntry>, itemId: string): (r: int)
    ensures IndexOfItem(entries, itemId).None? ==> r == 0
    ensures KeysDistinct(entries) && IndexOfItem(entries, itemId).Some? ==>
      r == entries[IndexOfItem(entries, itemId).value].quantity
  {
    ContentsKeys(entries, itemId);
    if KeysDistinct(entries) && IndexOfItem(entries, itemId).Some? then
      ContentsAt(entries, IndexOfItem(entries, itemId).value);
      Contents(entries)[itemId]
    else if itemId in Contents(entries) then Contents(entries)[itemId] else 0
  }

  /** The keys of the map view are exactly the keys of the entries. */
  lemma {:induction false} ContentsKeys(entries: seq<CartEntry>, itemId: string)
    ensures itemId in Contents(entries) <==> IndexOfItem(entries, itemId).Some?
  {
    if entries != [] {
      var init := entries[..|entries| - 1];
      ContentsKeys(init, itemId);
      if IndexOfItem(init, itemId).Some? {
        assert entries[IndexOfItem(init, itemId).value].itemId == itemId;
      }
      if IndexOfItem(entries, itemId).Some? && IndexOfItem(entries, itemId).value < |init| {
        assert init[IndexOfItem(entries, itemId).value].itemId == itemId;
      }
    }
  }

  /** With distinct keys, the map view holds each entry's own quantity. */
  lemma {:induction false} ContentsAt(entries: seq<CartEntry>, i: nat)
    requires KeysDistinct(entries) && i < |entries|
    ensures entries[i].itemId in Contents(entries)
    ensures Contents(entries)[entries[i].itemId] == entries[i].quantity
  {
    var init := entries[..|entries| - 1];
    if i < |init| {
      ContentsAt(init, i);
    }
  }

  /** Overwriting an entry's quantity updates that key of the map view. */
  lemma {:induction false} ContentsUpdate(entries: seq<CartEntry>, i: nat, e: CartEntry)
    requires KeysDistinct(entries) && i < |entries| && e.itemId == entries[i].itemId
    ensures Contents(entries[i := e]) == Contents(entries)[e.itemId := e.quantity]
  {
    var n := |entries|;
    var updated := entries[i := e];
    assert updated[..n - 1] == if i == n - 1 then entries[..n - 1] else entries[..n - 1][i := e];
    if i < n - 1 {
      ContentsUpdate(entries[..n - 1], i, e);
    }
  }

  /** Deleting an entry deletes its key from the map view. */
  lemma {:induction false} ContentsRemove(entries: seq<CartEntry>, i: nat)
    requires KeysDistinct(entries) && i < |entries|
    ensures Contents(entries[..i] + entries[i + 1..]) == Contents(entries) - {entries[i].itemId}
  {
    var n := |entries|;
    var init := entries[..n - 1];
    if i == n - 1 {
      assert entries[..i] + entries[i + 1..] == init;
      ContentsKeys(init, entries[i].itemId);
    } else {
      assert entries[..i] + entries[i + 1..] == (init[..i] + init[i + 1..]) + [entries[n - 1]];
      ContentsRemove(init, i);
    }
  }

  lemma {:induction false} KeysDistinctRemove(entries: seq<CartEntry>, i: nat)
    requires KeysDistinct(entries) && i < |entries|
    ensures KeysDistinct(entries[..i] + entries[i + 1..])
  {
    var r := entries[..i] + entries[i + 1..];
    forall k | 0 <= k < |r| ensures r[k] == if k < i then entries[k] else entries[k + 1] { }
  }

  /** The cart after `addToCart(itemId)`: unchanged for an id that is not on
      the menu; otherwise that item's quantity goes up by one (a new key at
      the end when it was absent) and no other key changes. */
  function Added(menu: seq<MenuItem>, entries: seq<CartEntry>, itemId: string): (r: seq<CartEntry>)
    requires KeysDistinct(entries)
    ensures KeysDistinct(r)
    ensures Contents(r) ==
      if OnMenu(menu, itemId) then Contents(entries)[itemId := Quantity(entries, itemId) + 1]
      else Contents(entries)
  {
    if !OnMenu(menu, itemId) then entries
    else match IndexOfItem(entries, itemId)
      case None =>
        ContentsKeys(entries, itemId);
        var r := entries + [CartEntry(itemId, 1)];
        assert r[..|entries|] == entries;
        r
      case Some(i) =>
        ContentsAt(entries, i);
        ContentsUpdate(entries, i, CartEntry(itemId, entries[i].quantity + 1));
        entries[i := CartEntry(itemId, entries[i].quantity + 1)]
  }

  /** The cart after `removeFromCart(itemId)`: unchanged when `cart[itemId]`
      is 0 or absent; otherwise the quantity goes down by one and the key is
      deleted when it reaches 0. No other key changes. */
  function Removed(entries: seq<CartEntry>, itemId: string): (r: seq<CartEntry>)
    requires KeysDistinct(entries)
    ensures KeysDistinct(r)
    ensures Contents(r) ==
      if Quantity(entries, itemId) == 0 then Contents(entries)
      else if Quantity(entries, itemId) == 1 then Contents(entries) - {itemId}
      else Contents(entries)[itemId := Quantity(entries, itemId) - 1]
  {
    match IndexOfItem(entries, itemId)
    case None =>
      ContentsKeys(entries, itemId);
      entries
    case Some(i) =>
      ContentsAt(entries, i);
      if entries[i].quantity == 0 then entries
      else if entries[i].quantity - 1 == 0 then
        ContentsRemove(entries, i);
        KeysDistinctRemove(entries, i);
        entries[..i] + entries[i + 1..]
      else
        ContentsUpdate(entries, i, CartEntry(itemId, entries[i].quantity - 1));
        entries[i := CartEntry(itemId, entries[i].quantity - 1)]
  }

  lemma {:induction false} AllOkAppend(menu: seq<MenuItem>, entries: seq<CartEntry>, e: CartEntry)
    requires AllOk(menu, entries) && EntryOk(menu, e)
    ensures AllOk(menu, entries + [e])
  {
    forall k | 0 <= k < |entries| + 1 ensures EntryOk(menu, (entries + [e])[k]) {
      if k < |entries| {
        assert (entries + [e])[k] == entries[k];
      }
    }
  }

  lemma {:induction false} AllOkUpdate(menu: seq<MenuItem>, entries: seq<CartEntry>, i: nat, e: CartEntry)
    requires i < |entries| && AllOk(menu, entries) && EntryOk(menu, e)
    ensures AllOk(menu, entries[i := e])
  {
    var r := entries[i := e];
    forall k | 0 <= k < |r| ensures EntryOk(menu, r[k]) {
      if k != i {
        assert r[k] == entries[k];
      }
    }
  }

  lemma {:induction false} AllOkRemove(menu: seq<MenuItem>, entries: seq<CartEntry>, i: nat)
    requires i < |entries| && AllOk(menu, entries)
    ensures AllOk(menu, entries[..i] + entries[i + 1..])
  {
    var r := entries[..i] + entries[i + 1..];
    forall k | 0 <= k < |r| ensures EntryOk(menu, r[k]) {
      assert r[k] == if k < i then entries[k] else entries[k + 1];
    }
  }

  /** `addToCart` keeps the cart well formed. */
  lemma {:induction false} AddedWellFormed(menu: seq<MenuItem>, entries: seq<CartEntry>, itemId: string)
    requires WellFormed(menu, entries)
    ensures WellFormed(menu, Added(menu, entries, itemId))
  {
    if OnMenu(menu, itemId) {
      match IndexOfItem(entries, itemId)
      case None =>
        AllOkAppend(menu, entries, CartEntry(itemId, 1));
      case Some(i) =>
        assert EntryOk(menu, entries[i]);
        AllOkUpdate(menu, entries, i, CartEntry(itemId, entries[i].quantity + 1));
    }
  }

  /** `removeFromCart` keeps the cart well formed: a key whose quantity
      reaches 0 is deleted rather than kept at 0. */
  lemma {:induction false} RemovedWellFormed(menu: seq<MenuItem>, entries: seq<CartEntry>, itemId: string)
    requires WellFormed(menu, entries)
    ensures WellFormed(menu, Removed(entries, itemId))
  {
    match IndexOfItem(entries, itemId)
    case None =>
    case Some(i) =>
      assert EntryOk(menu, entries[i]);
      if entries[i].quantity - 1 == 0 {
        AllOkRemove(menu, entries, i);
      } else {
        AllOkUpdate(menu, entries, i, CartEntry(itemId, entries[i].quantity - 1));
      }
  }

  /** Removing a key that was just appended with quantity 1 deletes it again. */
  lemma {:induction false} RemoveUndoesAppend(entries: seq<CartEntry>, added: seq<CartEntry>, itemId: string)
    requires KeysDistinct(added) && added == entries + [CartEntry(itemId, 1)]
    requires IndexOfItem(entries, itemId).None?
    ensures Removed(added, itemId) == entries
  {
    var n := |entries|;
    assert added[n].itemId == itemId;
    assert IndexOfItem(added, itemId) == Some(n);
    assert added[..n] + added[n + 1..] == entries;
  }

  /** Removing from a key whose quantity was just raised to at least 2
      lowers it back. */
  lemma {:induction false} RemoveUndoesIncrement(entries: seq<CartEntry>, added: seq<CartEntry>, i: nat)
    requires i < |entries| && entries[i].quantity >= 1
    requires added == entries[i := CartEntry(entries[i].itemId, entries[i].quantity + 1)]
    requires KeysDistinct(added)
    requires IndexOfItem(entries, entries[i].itemId) == Some(i)
    ensures Removed(added, entries[i].itemId) == entries
  {
    var itemId := entries[i].itemId;
    assert added[i].itemId == itemId;
    forall j | 0 <= j < i ensures added[j].itemId != itemId {
      assert added[j] == entries[j];
    }
    assert IndexOfItem(added, itemId) == Some(i);
    assert added[i := CartEntry(itemId, entries[i].quantity)] == entries;
  }

  /** Adding a menu item and then removing it gives back the cart as it was,
      key order included. */
  lemma {:induction false} RemoveUndoesAdd(menu: seq<MenuItem>, entries: seq<CartEntry>, itemId: string)
    requires WellFormed(menu, entries) && OnMenu(menu, itemId)
    ensures Removed(Added(menu, entries, itemId), itemId) == entries
  {
    var added := Added(menu, entries, itemId);
    match IndexOfItem(entries, itemId)
    case None =>
      AddedAppends(menu, entries, itemId);
      RemoveUndoesAppend(entries, added, itemId);
    case Some(i) =>
      assert EntryOk(menu, entries[i]);
      AddedIncrements(menu, entries, itemId, i);
      RemoveUndoesIncrement(entries, added, i);
  }

  /** A menu item not yet in the cart becomes a new last key. */
  lemma {:induction false} AddedAppends(menu: seq<MenuItem>, entries: seq<CartEntry>, itemId: string)
    requires KeysDistinct(entries) && OnMenu(menu, itemId) && IndexOfItem(entries, itemId).None?
    ensures Added(menu, entries, itemId) == entries + [CartEntry(itemId, 1)]
  {
    var r := Added(menu, entries, itemId);
    assert |r| == |entries| + 1;
    forall k | 0 <= k < |r| ensures r[k] == (entries + [CartEntry(itemId, 1)])[k] { }
  }

  /** A menu item already in the cart keeps its position. */
  lemma {:induction false} AddedIncrements(menu: seq<MenuItem>, entries: seq<CartEntry>, itemId: string, i: nat)
    requires KeysDistinct(entries) && OnMenu(menu, itemId) && IndexOfItem(entries, itemId) == Some(i)
    ensures Added(menu, entries, itemId) == entries[i := CartEntry(itemId, entries[i].quantity + 1)]
  {
    var r := Added(menu, entries, itemId);
    var e := CartEntry(itemId, entries[i].quantity + 1);
    assert |r| == |entries|;
    forall k | 0 <= k < |r| ensures r[k] == entries[i := e][k] { }
  }

  /** `Object.values(cart).reduce((sum, qty) => sum + qty, 0)`. When every
      quantity is at least 1, the count is at least the number of keys. */
  function ItemCount(entries: seq<CartEntry>): (r: int)
    ensures (forall i :: 0 <= i < |entries| ==> entries[i].quantity >= 1) ==> r >= |entries|
  {
    if entries == [] then 0 else entries[0].quantity + ItemCount(entries[1..])
  }

  /** The price of an item the cart may hold. */
  function PriceOf(menu: seq<MenuItem>, itemId: string): (r: int)
    requires OnMenu(menu, itemId)
    ensures PricesPositive(menu) ==> r > 0
  {
    FindMenuItem(menu, itemId).value.price
  }

  predicate AllOnMenu(menu: seq<MenuItem>, entries: seq<CartEntry>) {
    forall i :: 0 <= i < |entries| ==> OnMenu(menu, entries[i].itemId)
  }

  /** The total `placeOrder` reduces over `Object.entries(cart)`: price ×
      quantity summed. With positive prices and quantities it is positive
      exactly when the cart has a key. */
  function CartTotal(menu: seq<MenuItem>, entries: seq<CartEntry>): (r: int)
    requires AllOnMenu(menu, entries)
    ensures PricesPositive(menu) && (forall i :: 0 <= i < |entries| ==> entries[i].quantity >= 1) ==>
      (r > 0 <==> entries != [])
  {
    if entries == [] then 0
    else PriceOf(menu, entries[0].itemId) * entries[0].quantity + CartTotal(menu, entries[1..])
  }

  /** The `orderItems` conversion: one line item per cart key, in key order,
      with the menu's id, name and price and the cart's quantity. */
  function OrderItems(menu: seq<MenuItem>, entries: seq<CartEntry>): (r: seq<LineItem>)
    requires AllOnMenu(menu, entries)
    ensures |r| == |entries|
    ensures forall i :: 0 <= i < |r| ==>
      var m := FindMenuItem(menu, entries[i].itemId).value;
      r[i] == LineItem(m.id, m.name, entries[i].quantity, m.price)
  {
    if entries == [] then []
    else
      var m := FindMenuItem(menu, entries[0].itemId).value;
      [LineItem(m.id, m.name, entries[0].quantity, m.price)] + OrderItems(menu, entries[1..])
  }

  /** The line items sent to the server add up to the total sent with them. */
  lemma {:induction false} OrderItemsTotal(menu: seq<MenuItem>, entries: seq<CartEntry>)
    requires AllOnMenu(menu, entries)
    ensures ItemsTotal(OrderItems(menu, entries)) == CartTotal(menu, entries)
  {
    if entries != [] {
      OrderItemsTotal(menu, entries[1..]);
      assert OrderItems(menu, entries)[1..] == OrderItems(menu, entries[1..]);
    }
  }

  /** What `placeOrder` does with the cart: refuse, or send these items and this total. */
  datatype Checkout =
    | Refused
    | Submit(items: seq<LineItem>, total: int, itemCount: int)

  /** `placeOrder` up to the request: refused when the item count is 0 or the
      total is not positive; otherwise the converted items, whose prices sum
      to the positive total sent with them. */
  function PrepareOrder(menu: seq<MenuItem>, entries: seq<CartEntry>): (r: Checkout)
    requires AllOnMenu(menu, entries)
    ensures r.Refused? <==> ItemCount(entries) == 0 || CartTotal(menu, entries) <= 0
    ensures r.Submit? ==>
      && r.items == OrderItems(menu, entries)
      && r.itemCount == ItemCount(entries) && r.itemCount != 0
      && r.total == ItemsTotal(r.items) == CartTotal(menu, entries) > 0
  {
    var count := ItemCount(entries);
    var total := CartTotal(menu, entries);
    if count == 0 || total <= 0 then Refused
    else
      OrderItemsTotal(menu, entries);
      Submit(OrderItems(menu, entries), total, count)
  }

  /** `placeOrder` refuses a well-formed cart exactly when it is empty. */
  lemma {:induction false} RefusedOnlyWhenEmpty(menu: seq<MenuItem>, entries: seq<CartEntry>)
    requires WellFormed(menu, entries) && PricesPositive(menu)
    ensures PrepareOrder(menu, entries).Refused? <==> entries == []
  {
    forall i | 0 <= i < |entries| ensures entries[i].quantity >= 1 {
      assert EntryOk(menu, entries[i]);
    }
  }

  /** An order the cart submits passes the server's creation checks. */
  lemma {:induction false} SubmittedOrderPassesValidation(menu: seq<MenuItem>, entries: seq<CartEntry>)
    requires AllOnMenu(menu, entries)
    requires PrepareOrder(menu, entries).Submit?
    ensures OrderServer.ValidateCreate(Some(PrepareOrder(menu, entries).items), Some(PrepareOrder(menu, entries).total)).None?
  {
  }

  /** `Object.entries(cart).filter(([_, quantity]) => quantity > 0)` in
      `updateCartDisplay`. */
  function DisplayedEntries(entries: seq<CartEntry>): (r: seq<CartEntry>)
    ensures forall e :: e in r <==> e in entries && e.quantity > 0
    ensures forall e :: multiset(r)[e] == if e.quantity > 0 then multiset(entries)[e] else 0
  {
    if entries == [] then []
    else
      assert entries == [entries[0]] + entries[1..];
      if entries[0].quantity > 0 then [entries[0]] + DisplayedEntries(entries[1..])
      else DisplayedEntries(entries[1..])
  }

  /** The cart view shows every key of a well-formed cart, so its total is
      the one `placeOrder` sends. */
  lemma {:induction false} DisplayShowsWholeCart(menu: seq<MenuItem>, entries: seq<CartEntry>)
    requires WellFormed(menu, entries)
    ensures DisplayedEntries(entries) == entries
  {
    if entries != [] {
      assert WellFormed(menu, entries[1..]) by {
        forall i | 0 <= i < |entries[1..]| ensures entries[1..][i] == entries[i + 1] { }
      }
      DisplayShowsWholeCart(menu, entries[1..]);
    }
  }

  /** The page-global `cart`. */
  class CustomerCart {
    const menu: seq<MenuItem>
    var entries: seq<CartEntry>

    ghost predicate Valid()
      reads this
    {
      WellFormed(menu, entries) && PricesPositive(menu)
    }

    constructor ()
      ensures Valid() && menu == Menu && entries == []
    {
      menu := Menu;
      entries := [];
      MenuPricesPositive();
    }

    /** `addToCart(itemId)`. */
    method AddToCart(itemId: string)
      requires Valid()
      modifies this
      ensures Valid()
      ensures entries == Added(menu, old(entries), itemId)
    {
      var item := FindMenuItem(menu, itemId);
      if item.None? {
        return;
      }
      AddedWellFormed(menu, entries, itemId);
      entries := Added(menu, entries, itemId);
    }

    /** `removeFromCart(itemId)`. */
    method RemoveFromCart(itemId: string)
      requires Valid()
      modifies this
      ensures Valid()
      ensures entries == Removed(old(entries), itemId)
    {
      RemovedWellFormed(menu, entries, itemId);
      entries := Removed(entries, itemId);
    }

    /** `clearCart()`: `cart = {}`. */
    method ClearCart()
      requires Valid()
      modifies this
      ensures Valid()
      ensures entries == [] && Contents(entries) == map[]
    {
      entries := [];
    }

    /** `placeOrder()` up to the request it would send. */
    method PlaceOrder() returns (r: Checkout)
      requires Valid()
      ensures r.Refused? <==> entries == []
      ensures r.Submit? ==> r.items == OrderItems(menu, entries) && r.total == ItemsTotal(r.items) > 0
    {
      RefusedOnlyWhenEmpty(menu, entries);
      r := PrepareOrder(menu, entries);
    }
  }
}
