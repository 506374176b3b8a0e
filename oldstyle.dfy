/** The first variant of the backend (oldstyle.py). An order line always takes
    its name and price from the catalog; creating an order also draws down
    inventory by a name-substring rule; the kitchen sees a queue of orders that
    are not finished; a recommendation helper suggests menu items. */
module OldStyle {
  import opened Collections
  import opened Restaurant

  // ---------------------------------------------------------------------
  // Seed data
  // ---------------------------------------------------------------------

  const Menu0: seq<MenuItem> := [
    MenuItem(1, "Karak Tea", 6.0, "Drinks"),
    MenuItem(2, "Pizza", 32.0, "Main"),
    MenuItem(3, "Chicken Biryani", 28.0, "Main"),
    MenuItem(4, "Rice Plate", 15.0, "Side"),
    MenuItem(5, "Mandi", 30.0, "Main"),
    MenuItem(6, "French Fries", 12.0, "Side"),
    MenuItem(7, "Chocolate Cake", 22.0, "Dessert")
  ]

  const Inventory0: seq<InventoryRecord> := [
    InventoryRecord(1, "Rice (kg)", 25.0, "kg", 5.0),
    InventoryRecord(2, "Chicken (kg)", 15.0, "kg", 4.0),
    InventoryRecord(3, "Tea Leaves (kg)", 3.0, "kg", 2.0),
    InventoryRecord(4, "Soft Drinks (bottles)", 40.0, "pcs", 10.0),
    InventoryRecord(5, "French Fries (kg)", 10.0, "kg", 3.0)
  ]

  // ---------------------------------------------------------------------
  // Order normalisation
  // ---------------------------------------------------------------------

  /** `it.get("id") or it.get("menu_id")`: the first key's value when truthy. */
  function InlineMenuId(o: InlineObject): IdValue
  {
    if Truthy(o.id) then o.id else o.menuId
  }

  /** The menu id an entry names: a bare integer itself, an object's
      `id or menu_id`. */
  function NamedId(raw: RawItem): IdValue
  {
    match raw
    case ById(n) => IntId(n)
    case Inline(o) => InlineMenuId(o)
    case Other => Missing
  }

  /** `find_menu_item(menu_id) if menu_id else None` finds a menu item. */
  predicate Resolves(menu: seq<MenuItem>, o: InlineObject)
  {
    var mid := InlineMenuId(o);
    Truthy(mid) && mid.IntId? && FindMenuItem(menu, mid.n).Some?
  }

  /** A line item that carries the name, price and id of the first catalog
      entry with its menu id. */
  ghost predicate FromCatalog(menu: seq<MenuItem>, li: LineItem)
  {
    && li.menuId.IntId?
    && var f := FindMenuItem(menu, li.menuId.n);
    && f.Some?
    && menu[f.value].name == li.name
    && menu[f.value].price == li.price
  }

  /** One pass of the `create_order` loop: an object resolves its id against the
      catalog and keeps the caller's qty (the price times a qty that is not a
      number raises); a bare integer is a menu id with qty 1; anything
      unresolved is dropped. */
  function NormalizeEntry(menu: seq<MenuItem>, raw: RawItem): (r: EntryOutcome)
    ensures r.Kept? ==> FromCatalog(menu, r.item) && r.item.menuId == NamedId(raw)
    ensures raw.ById? ==>
      && !r.Crashed?
      && (r.Kept? <==> FindMenuItem(menu, raw.id).Some?)
      && (r.Kept? ==>
            var m := menu[FindMenuItem(menu, raw.id).value];
            r.item == LineItem(IntId(raw.id), m.name, m.price, 1.0))
    ensures raw.Inline? ==> (r.Dropped? <==> !Resolves(menu, raw.obj))
    ensures raw.Inline? && r.Kept? ==>
      && r.item.menuId == InlineMenuId(raw.obj)
      && GetOr(raw.obj.qty, Number(1.0)) == Number(r.item.qty)
    ensures r.Crashed? <==> raw.Inline? && Resolves(menu, raw.obj) && !GetOr(raw.obj.qty, Number(1.0)).Number?
    ensures raw.Other? ==> r.Dropped?
  {
    match raw
    case Inline(o) =>
      var mid := InlineMenuId(o);
      var found := if Truthy(mid) && mid.IntId? then FindMenuItem(menu, mid.n) else None;
      if found.None? then Dropped
      else
        var m := menu[found.value];
        var qty := GetOr(o.qty, Number(1.0));
        if qty.Number? then Kept(LineItem(IntId(m.id), m.name, m.price, qty.r)) else Crashed
    case ById(n) =>
      (match FindMenuItem(menu, n)
       case None => Dropped
       case Some(k) => Kept(LineItem(IntId(menu[k].id), menu[k].name, menu[k].price, 1.0)))
    case Other => Dropped
  }

  /** The line items `create_order` builds from the raw list, or the exception
      that stops it. */
  function Normalize(menu: seq<MenuItem>, raw: seq<RawItem>): Result<seq<LineItem>>
  {
    NormalizeWith(NormalizeEntry, menu, raw)
  }

  /** Normalisation raises exactly when some object entry resolves to a menu
      item but carries a qty that is not a number. */
  lemma NormalizeRaises(menu: seq<MenuItem>, raw: seq<RawItem>)
    ensures Normalize(menu, raw).Err? <==>
      exists i :: 0 <= i < |raw| && raw[i].Inline? && Resolves(menu, raw[i].obj)
                  && !GetOr(raw[i].obj.qty, Number(1.0)).Number?
    ensures Normalize(menu, raw).Err? ==> Normalize(menu, raw).error == InternalError
  {
    NormalizeFails(NormalizeEntry, menu, raw);
  }

  /** A successful normalisation has no more lines than entries, and every
      line is the catalog item, name and price, of the id that its own entry
      names. */
  lemma NormalizeFromCatalog(menu: seq<MenuItem>, raw: seq<RawItem>)
    ensures Normalize(menu, raw).Ok? ==>
      && |Normalize(menu, raw).value| <= |raw|
      && forall li :: li in Normalize(menu, raw).value ==>
           && FromCatalog(menu, li)
           && exists i :: 0 <= i < |raw| && NamedId(raw[i]) == li.menuId && NormalizeEntry(menu, raw[i]) == Kept(li)
  {
    NormalizeKept(NormalizeEntry, menu, raw);
  }

  lemma SeededEntries()
    ensures NormalizeEntry(Menu0, ById(2)) == Kept(LineItem(IntId(2), "Pizza", 32.0, 1.0))
    ensures NormalizeEntry(Menu0, ById(3)) == Kept(LineItem(IntId(3), "Chicken Biryani", 28.0, 1.0))
  {
    assert FindMenuItem(Menu0, 2) == Some(1);
    assert FindMenuItem(Menu0, 3) == Some(2);
  }

  lemma TwoLineTotal(a: LineItem, b: LineItem)
    ensures LineTotal([a, b]) == a.price * a.qty + b.price * b.qty
  {
    assert [a, b][..1] == [a];
    assert [a][..0] == [];
    assert LineTotal([a]) == a.price * a.qty;
  }

  /** The scenario that orders Pizza (id 2) and Chicken Biryani (id 3) from the
      seeded menu: two catalog lines totalling 60. */
  lemma PizzaAndBiryani()
    ensures Normalize(Menu0, [ById(2), ById(3)])
         == Ok([LineItem(IntId(2), "Pizza", 32.0, 1.0), LineItem(IntId(3), "Chicken Biryani", 28.0, 1.0)])
    ensures LineTotal(Normalize(Menu0, [ById(2), ById(3)]).value) == 60.0
  {
    var raw := [ById(2), ById(3)];
    var pizza := LineItem(IntId(2), "Pizza", 32.0, 1.0);
    var biryani := LineItem(IntId(3), "Chicken Biryani", 28.0, 1.0);
    SeededEntries();
    assert raw[..0] == [];
    NormalizeStep(NormalizeEntry, Menu0, raw, 0, []);
    assert [] + [pizza] == [pizza];
    NormalizeStep(NormalizeEntry, Menu0, raw, 1, [pizza]);
    assert raw[..2] == raw;
    assert [pizza] + [biryani] == [pizza, biryani];
    TwoLineTotal(pizza, biryani);
  }

  // ---------------------------------------------------------------------
  // Inventory side effect of an order
  // ---------------------------------------------------------------------

  /** Some line item mentions "Mandi" or "Biryani". */
  predicate UsesRice(items: seq<LineItem>)
  {
    exists i :: 0 <= i < |items| && (Contains(items[i].name, "Mandi") || Contains(items[i].name, "Biryani"))
  }

  /** Some line item mentions "Karak". */
  predicate UsesTea(items: seq<LineItem>)
  {
    exists i :: 0 <= i < |items| && Contains(items[i].name, "Karak")
  }

  /** One row after an order: a "Rice..." row loses 1 and a "Tea..." row 0.1,
      each floored at 0, when the order has a matching dish; nothing else moves. */
  function ConsumeRow(row: InventoryRecord, items: seq<LineItem>): (r: InventoryRecord)
    ensures r.(quantity := row.quantity) == row
    ensures r != row ==> (StartsWith(row.name, "Rice") || StartsWith(row.name, "Tea")) && r.quantity >= 0.0
    ensures !UsesRice(items) && !UsesTea(items) ==> r == row
    ensures row.quantity >= 0.0 ==> 0.0 <= r.quantity <= row.quantity
    ensures StartsWith(row.name, "Rice") && UsesRice(items) ==> r.quantity == Max(row.quantity - 1.0, 0.0)
    ensures StartsWith(row.name, "Tea") && UsesTea(items) ==> r.quantity == Max(row.quantity - 0.1, 0.0)
    ensures !(StartsWith(row.name, "Rice") && UsesRice(items)) && !(StartsWith(row.name, "Tea") && UsesTea(items)) ==>
      r == row
  {
    assert StartsWith(row.name, "Rice") ==> !StartsWith(row.name, "Tea") by {
      if StartsWith(row.name, "Rice") { assert row.name[0] == 'R'; }
    }
    var afterRice :=
      if StartsWith(row.name, "Rice") && UsesRice(items) then row.(quantity := Max(row.quantity - 1.0, 0.0))
      else row;
    if StartsWith(afterRice.name, "Tea") && UsesTea(items) then afterRice.(quantity := Max(afterRice.quantity - 0.1, 0.0))
    else afterRice
  }

  /** The inventory after `recalc_inventory_for_order`, row by row. */
  function ConsumeStock(inventory: seq<InventoryRecord>, items: seq<LineItem>): (r: seq<InventoryRecord>)
    ensures |r| == |inventory|
    ensures forall i :: 0 <= i < |r| ==> r[i] == ConsumeRow(inventory[i], items)
  {
    seq(|inventory|, i requires 0 <= i < |inventory| => ConsumeRow(inventory[i], items))
  }

  /** What the side effect guarantees across the whole inventory: ids, names,
      units and thresholds stay; only rows named "Rice..." or "Tea..." change,
      and a changed row is never left below zero. */
  lemma ConsumeStockBounds(inventory: seq<InventoryRecord>, items: seq<LineItem>)
    ensures var r := ConsumeStock(inventory, items);
      forall i :: 0 <= i < |r| ==>
        && r[i].(quantity := inventory[i].quantity) == inventory[i]
        && (r[i] == inventory[i] || r[i].quantity >= 0.0)
        && (r[i] != inventory[i] ==> StartsWith(inventory[i].name, "Rice") || StartsWith(inventory[i].name, "Tea"))
  {
  }

  /** `low_stock_items`: the rows at or below their threshold, in inventory order. */
  predicate IsLowStock(x: InventoryRecord)
  {
    x.quantity <= x.lowStockThreshold
  }

  function LowStockItems(inventory: seq<InventoryRecord>): (r: seq<InventoryRecord>)
    ensures IsSubsequence(r, inventory)
    ensures forall x :: x in r ==> x in inventory && x.quantity <= x.lowStockThreshold
    ensures forall x :: x in inventory && x.quantity <= x.lowStockThreshold ==> multiset(r)[x] == multiset(inventory)[x]
  {
    FilterIsFilterOf(inventory, IsLowStock);
    SubsequenceMembers(Filter(inventory, IsLowStock), inventory);
    Filter(inventory, IsLowStock)
  }

  // ---------------------------------------------------------------------
  // Recommendations
  // ---------------------------------------------------------------------

  /** The categories of the menu items named by the input ids. */
  function CurrentCategories(menu: seq<MenuItem>, ids: seq<int>): set<string>
  {
    set m | m in menu && m.id in ids :: m.category
  }

  /** The items not named by the input that share a category with it. */
  function SameCategory(menu: seq<MenuItem>, ids: seq<int>): seq<MenuItem>
  {
    var cats := CurrentCategories(menu, ids);
    Filter(menu, (m: MenuItem) => m.id !in ids && m.category in cats)
  }

  /** The candidate pool: the same-category items, or failing those every item
      not named by the input. */
  function Candidates(menu: seq<MenuItem>, ids: seq<int>): seq<MenuItem>
  {
    var same := SameCategory(menu, ids);
    if same != [] then same else Filter(menu, (m: MenuItem) => m.id !in ids)
  }

  /** Sort key for `sorted(..., key=price, reverse=True)`. */
  function NegPrice(m: MenuItem): real
  {
    -m.price
  }

  /** `simple_recommendations`: the three most expensive candidates. */
  function Recommendations(menu: seq<MenuItem>, ids: seq<int>): (r: seq<MenuItem>)
    ensures ids == [] ==> r == []
    ensures |r| <= 3
    ensures forall m :: m in r ==> m in menu && m.id !in ids
  {
    if ids == [] then []
    else
      var pool := Candidates(menu, ids);
      var sorted := SortBy(pool, NegPrice);
      CandidatesInMenu(menu, ids);
      var r := sorted[..Min(3, |sorted|)];
      assert forall m :: m in r ==> m in multiset(sorted);
      r
  }

  lemma CandidatesInMenu(menu: seq<MenuItem>, ids: seq<int>)
    ensures forall m :: m in Candidates(menu, ids) ==> m in menu && m.id !in ids
  {
    var cats := CurrentCategories(menu, ids);
    FilterMembers(menu, (m: MenuItem) => m.id !in ids && m.category in cats);
    FilterMembers(menu, (m: MenuItem) => m.id !in ids);
  }

  /** A menu item exists outside the input in one of the input's categories. */
  ghost predicate HasSameCategory(menu: seq<MenuItem>, ids: seq<int>)
  {
    exists m :: m in menu && m.id !in ids && m.category in CurrentCategories(menu, ids)
  }

  /** The pool holds, in catalog order, the non-input items of the input's
      categories when there are any, and every non-input item otherwise. */
  lemma CandidatesMembers(menu: seq<MenuItem>, ids: seq<int>)
    ensures IsSubsequence(Candidates(menu, ids), menu)
    ensures forall m :: m in Candidates(menu, ids) <==>
      m in menu && m.id !in ids && (HasSameCategory(menu, ids) ==> m.category in CurrentCategories(menu, ids))
  {
    var cats := CurrentCategories(menu, ids);
    var pSame := (m: MenuItem) => m.id !in ids && m.category in cats;
    var pOther := (m: MenuItem) => m.id !in ids;
    FilterMembers(menu, pSame);
    FilterMembers(menu, pOther);
    FilterIsFilterOf(menu, pSame);
    FilterIsFilterOf(menu, pOther);
    if SameCategory(menu, ids) == [] {
      forall m | m in menu && m.id !in ids ensures m.category !in cats {
        assert pSame(m) == (m.category in cats);
      }
    } else {
      var w := SameCategory(menu, ids)[0];
      assert w in SameCategory(menu, ids);
    }
  }

  /** The result is the top of the pool by price: as many as fit in three,
      drawn from the pool, in non-increasing price order, none left behind
      dearer than one taken, and equal prices in catalog order. */
  lemma {:induction false} RecommendationsTopThree(menu: seq<MenuItem>, ids: seq<int>)
    requires ids != []
    ensures var pool := Candidates(menu, ids);
      var r := Recommendations(menu, ids);
      && |r| == Min(3, |pool|)
      && multiset(r) <= multiset(pool)
      && (forall i, j :: 0 <= i < j < |r| ==> r[i].price >= r[j].price)
      && (forall x, y :: x in multiset(pool) - multiset(r) && y in r ==> x.price <= y.price)
      && (forall p :: KeyFilter(r, NegPrice, p) <= KeyFilter(pool, NegPrice, p))
  {
    var pool := Candidates(menu, ids);
    var r := Recommendations(menu, ids);
    SortByPrefix(pool, NegPrice, Min(3, |pool|));
    forall i, j | 0 <= i < j < |r| ensures r[i].price >= r[j].price {
      assert NegPrice(r[i]) <= NegPrice(r[j]);
    }
    forall x, y | x in multiset(pool) - multiset(r) && y in r ensures x.price <= y.price {
      assert NegPrice(y) <= NegPrice(x);
    }
  }

  // ---------------------------------------------------------------------
  // Order queries
  // ---------------------------------------------------------------------

  /** The conjunction of the `status` and `type` query filters; an empty
      parameter is no filter. */
  predicate MatchesQuery(o: Order, status: string, orderType: string)
  {
    (status != "" ==> o.status.Name() == status) && (orderType != "" ==> o.orderType == orderType)
  }

  /** `list_orders`: exactly the orders matching every given filter, in
      creation order. */
  function ListOrders(orders: seq<Order>, status: string, orderType: string): (r: seq<Order>)
    ensures IsSubsequence(r, orders)
    ensures forall o :: o in r ==> MatchesQuery(o, status, orderType)
    ensures forall o :: o in orders && MatchesQuery(o, status, orderType) ==> multiset(r)[o] == multiset(orders)[o]
  {
    var pStatus := (o: Order) => status != "" ==> o.status.Name() == status;
    var pType := (o: Order) => orderType != "" ==> o.orderType == orderType;
    var byStatus := if status != "" then Filter(orders, pStatus) else orders;
    var r := if orderType != "" then Filter(byStatus, pType) else byStatus;
    ListOrdersCorrect(orders, byStatus, r, status, orderType, pStatus, pType);
    r
  }

  lemma ListOrdersCorrect(orders: seq<Order>, byStatus: seq<Order>, r: seq<Order>,
                          status: string, orderType: string,
                          pStatus: Order -> bool, pType: Order -> bool)
    requires forall o :: pStatus(o) == (status != "" ==> o.status.Name() == status)
    requires forall o :: pType(o) == (orderType != "" ==> o.orderType == orderType)
    requires byStatus == if status != "" then Filter(orders, pStatus) else orders
    requires r == if orderType != "" then Filter(byStatus, pType) else byStatus
    ensures IsFilterOf(r, orders, (o: Order) => MatchesQuery(o, status, orderType))
  {
    if status != "" { FilterIsFilterOf(orders, pStatus); } else { FilterOfSelf(orders, pStatus); }
    if orderType != "" { FilterIsFilterOf(byStatus, pType); } else { FilterOfSelf(byStatus, pType); }
    FilterOfFilter(r, byStatus, orders, pStatus, pType, (o: Order) => MatchesQuery(o, status, orderType));
  }

  /** Orders the kitchen still has to deal with. */
  predicate IsActive(o: Order)
  {
    o.status != Completed && o.status != Cancelled
  }

  function CreatedKey(o: Order): real
  {
    o.createdAt as real
  }

  /** `kitchen_queue`: the active orders sorted by creation time, ties in
      creation order. */
  function KitchenQueue(orders: seq<Order>): (r: seq<Order>)
    ensures forall o :: o in r ==> o in orders && IsActive(o)
    ensures forall o :: o in orders && IsActive(o) ==> multiset(r)[o] == multiset(orders)[o]
    ensures forall i, j :: 0 <= i < j < |r| ==> r[i].createdAt <= r[j].createdAt
    ensures forall t :: KeyFilter(r, CreatedKey, t) == KeyFilter(Filter(orders, IsActive), CreatedKey, t)
  {
    var active := Filter(orders, IsActive);
    var r := SortBy(active, CreatedKey);
    FilterIsFilterOf(orders, IsActive);
    FilterMembers(orders, IsActive);
    SortBySorted(active, CreatedKey);
    forall o | o in r ensures o in orders && IsActive(o) {
      assert o in multiset(active);
    }
    forall i, j | 0 <= i < j < |r| ensures r[i].createdAt <= r[j].createdAt {
      assert CreatedKey(r[i]) <= CreatedKey(r[j]);
    }
    forall t ensures KeyFilter(r, CreatedKey, t) == KeyFilter(active, CreatedKey, t) {
      SortByStable(active, CreatedKey, t);
    }
    r
  }

  /** Orders are stamped from a clock that does not run backwards, so their
      creation times never decrease; then the queue is simply the active
      orders in list order. */
  lemma KitchenQueueInListOrder(orders: seq<Order>)
    requires forall i, j :: 0 <= i < j < |orders| ==> orders[i].createdAt <= orders[j].createdAt
    ensures KitchenQueue(orders) == Filter(orders, IsActive)
  {
    assert SortedBy(orders, CreatedKey);
    FilterSorted(orders, IsActive, CreatedKey);
    SortByIdentity(Filter(orders, IsActive), CreatedKey);
  }

  // ---------------------------------------------------------------------
  // The store
  // ---------------------------------------------------------------------

  /** The update handlers catch ValueError (400); any other conversion
      failure escapes the handler (500). */
  function UpdateError<T>(c: Converted<T>): (e: Error)
    ensures e == InvalidInput <==> c.ValueErr?
    ensures !c.ValueErr? ==> e == InternalError
  {
    if c.ValueErr? then InvalidInput else InternalError
  }

  /** The process-wide lists MENU, INVENTORY, RESERVATIONS and ORDERS. */
  class Store {
    var menu: seq<MenuItem>
    var inventory: seq<InventoryRecord>
    var reservations: seq<Reservation>
    var orders: seq<Order>

    ghost predicate Valid()
      reads this
    {
      OrdersValid(orders) && ReservationsValid(reservations)
    }

    constructor ()
      ensures Valid()
      ensures menu == Menu0 && inventory == Inventory0 && reservations == [] && orders == []
    {
      menu := Menu0;
      inventory := Inventory0;
      reservations := [];
      orders := [];
    }

    /** `update_menu_item`: sets the fields present in the request, in the
        order name, price, category. A price `float()` rejects with ValueError
        answers 400, one of the wrong type raises (500), and in both cases the
        name already set stays set. */
    method UpdateMenuItem(id: int, patch: MenuPatch) returns (r: Result<MenuItem>)
      modifies this`menu
      ensures FindMenuItem(old(menu), id).None? ==> r == Err(NotFound) && menu == old(menu)
      ensures FindMenuItem(old(menu), id).Some? ==>
        var k := FindMenuItem(old(menu), id).value;
        var m := old(menu)[k];
        var price := FloatField(patch.price, m.price);
        && |menu| == |old(menu)|
        && (forall j :: 0 <= j < |menu| && j != k ==> menu[j] == old(menu)[j])
        && menu[k].id == m.id
        && menu[k].name == GetOr(patch.name, m.name)
        && (if price.Value? then
              && r == Ok(menu[k])
              && menu[k].price == price.v
              && menu[k].category == GetOr(patch.category, m.category)
            else
              r == Err(UpdateError(price)) && menu[k].price == m.price && menu[k].category == m.category)
    {
      var found := FindMenuItem(menu, id);
      if found.None? {
        return Err(NotFound);
      }
      var k := found.value;
      if patch.name.Some? {
        menu := menu[k := menu[k].(name := patch.name.value)];
      }
      if patch.price.Some? {
        match ToFloat(patch.price.value) {
          case ValueErr =>
            return Err(InvalidInput);
          case TypeErr =>
            return Err(InternalError);
          case Value(p) =>
            menu := menu[k := menu[k].(price := p)];
        }
      }
      if patch.category.Some? {
        menu := menu[k := menu[k].(category := patch.category.value)];
      }
      r := Ok(menu[k]);
    }

    /** `update_inventory`: sets qty, then the threshold, when present. A value
        `float()` rejects with ValueError answers 400, one of the wrong type
        raises (500); a qty set before a bad threshold stays set. */
    method UpdateInventory(id: int, patch: InventoryPatch) returns (r: Result<InventoryRecord>)
      modifies this`inventory
      ensures FindInventoryRecord(old(inventory), id).None? ==> r == Err(NotFound) && inventory == old(inventory)
      ensures FindInventoryRecord(old(inventory), id).Some? ==>
        var k := FindInventoryRecord(old(inventory), id).value;
        var x := old(inventory)[k];
        var qty := FloatField(patch.qty, x.quantity);
        var threshold := FloatField(patch.lowStockThreshold, x.lowStockThreshold);
        && |inventory| == |old(inventory)|
        && (forall j :: 0 <= j < |inventory| && j != k ==> inventory[j] == old(inventory)[j])
        && inventory[k].(quantity := x.quantity, lowStockThreshold := x.lowStockThreshold) == x
        && (if !qty.Value? then
              r == Err(UpdateError(qty)) && inventory[k] == x
            else
              && inventory[k].quantity == qty.v
              && if !threshold.Value? then
                   r == Err(UpdateError(threshold)) && inventory[k].lowStockThreshold == x.lowStockThreshold
                 else
                   r == Ok(inventory[k]) && inventory[k].lowStockThreshold == threshold.v)
    {
      var found := FindInventoryRecord(inventory, id);
      if found.None? {
        return Err(NotFound);
      }
      var k := found.value;
      if patch.qty.Some? {
        match ToFloat(patch.qty.value) {
          case ValueErr =>
            return Err(InvalidInput);
          case TypeErr =>
            return Err(InternalError);
          case Value(q) =>
            inventory := inventory[k := inventory[k].(quantity := q)];
        }
      }
      if patch.lowStockThreshold.Some? {
        match ToFloat(patch.lowStockThreshold.value) {
          case ValueErr =>
            return Err(InvalidInput);
          case TypeErr =>
            return Err(InternalError);
          case Value(t) =>
            inventory := inventory[k := inventory[k].(lowStockThreshold := t)];
        }
      }
      r := Ok(inventory[k]);
    }

    /** `create_reservation`: appends a reservation with the next id. */
    method CreateReservation(req: ReservationRequest, now: nat) returns (r: Reservation)
      requires Valid()
      modifies this`reservations
      ensures Valid()
      ensures r == NewReservation(req, |old(reservations)| + 1, now)
      ensures reservations == old(reservations) + [r]
    {
      r := NewReservation(req, |reservations| + 1, now);
      reservations := reservations + [r];
    }

    /** `recalc_inventory_for_order`: walks the inventory and draws down the
        rows the order's dishes use. */
    method RecalcInventoryForOrder(items: seq<LineItem>)
      modifies this`inventory
      ensures inventory == ConsumeStock(old(inventory), items)
    {
      var i := 0;
      while i < |inventory|
        invariant 0 <= i <= |inventory| == |old(inventory)|
        invariant forall k :: 0 <= k < i ==> inventory[k] == ConsumeRow(old(inventory)[k], items)
        invariant forall k :: i <= k < |inventory| ==> inventory[k] == old(inventory)[k]
      {
        var inv := inventory[i];
        if StartsWith(inv.name, "Rice") && UsesRice(items) {
          inv := inv.(quantity := Max(inv.quantity - 1.0, 0.0));
        }
        if StartsWith(inv.name, "Tea") && UsesTea(items) {
          inv := inv.(quantity := Max(inv.quantity - 0.1, 0.0));
        }
        inventory := inventory[i := inv];
        i := i + 1;
      }
    }

    /** `create_order`: normalises the raw items against the catalog, sums the
        total, creates the order with the next id, status RECEIVED and one log
        entry, applies the inventory side effect and appends the order. An
        exception while normalising leaves everything as it was. */
    method CreateOrder(req: OrderRequest, now: nat) returns (r: Result<Order>)
      requires Valid()
      modifies this`orders, this`inventory
      ensures Valid()
      ensures Normalize(menu, req.items).Err? ==>
        r == Err(InternalError) && orders == old(orders) && inventory == old(inventory)
      ensures Normalize(menu, req.items).Ok? ==>
        r.Ok? &&
        var o := r.value;
        && o.id == |old(orders)| + 1
        && o.customerName == GetOr(req.customerName, "Guest")
        && o.orderType == GetOr(req.orderType, "WALK_IN")
        && o.tableNo == req.tableNo && o.deliveryAddress == req.deliveryAddress
        && o.items == Normalize(menu, req.items).value
        && o.total == LineTotal(o.items)
        && o.status == Received
        && o.createdAt == now && o.updatedAt == now
        && o.log == [LogEntry(Received, now, Some("Order created"))]
        && orders == old(orders) + [o]
        && inventory == ConsumeStock(old(inventory), o.items)
    {
      var normalized, total := NormalizeItems(NormalizeEntry, menu, req.items);
      if normalized.Err? {
        return Err(InternalError);
      }
      var items := normalized.value;
      var order := Order(|orders| + 1, GetOr(req.customerName, "Guest"), GetOr(req.orderType, "WALK_IN"),
                         req.tableNo, req.deliveryAddress, items, total, Received, now, now, []);
      order := AppendLog(order, LogEntry(order.status, now, Some("Order created")));
      RecalcInventoryForOrder(order.items);
      OrdersValidAppend(orders, order);
      orders := orders + [order];
      r := Ok(order);
    }

    /** `update_order_status`: an unknown status answers 400 before the order
        is looked up; a known one replaces the status of the order, from
        whatever it was, and logs the change. */
    method UpdateOrderStatus(id: int, status: Option<string>, now: nat) returns (r: Result<Order>)
      requires Valid()
      modifies this`orders
      ensures Valid()
      ensures ParseStatus(status).None? ==> r == Err(InvalidInput) && orders == old(orders)
      ensures ParseStatus(status).Some? && FindOrder(old(orders), id).None? ==>
        r == Err(NotFound) && orders == old(orders)
      ensures r.Ok? <==> ParseStatus(status).Some? && 1 <= id <= |old(orders)|
      ensures ParseStatus(status).Some? && FindOrder(old(orders), id).Some? ==>
        var k := FindOrder(old(orders), id).value;
        var s := ParseStatus(status).value;
        var o := old(orders)[k];
        && k == id - 1
        && |orders| == |old(orders)|
        && (forall j :: 0 <= j < |orders| && j != k ==> orders[j] == old(orders)[j])
        && orders[k] == o.(status := s, updatedAt := now,
                           log := o.log + [LogEntry(s, now, Some("Status changed to " + s.Name()))])
        && r == Ok(orders[k])
    {
      SequentialLookup(orders, id);
      var s := ParseStatus(status);
      if s.None? {
        return Err(InvalidInput);
      }
      var found := FindOrder(orders, id);
      if found.None? {
        return Err(NotFound);
      }
      var k := found.value;
      var o := orders[k].(status := s.value, updatedAt := now);
      o := AppendLog(o, LogEntry(o.status, now, Some("Status changed to " + s.value.Name())));
      OrdersValidUpdate(orders, k, o);
      orders := orders[k := o];
      r := Ok(o);
    }

    /** `analytics`: the summary over every order plus the low-stock rows. */
    method Analytics() returns (s: Summary, lowStock: seq<InventoryRecord>)
      requires Valid()
      ensures SummaryOf(s, orders)
      ensures s.topItems == TopItems(Tally(AllItems(orders)))
      ensures s.totalRevenue == LineTotal(AllItems(orders))
      ensures lowStock == LowStockItems(inventory)
    {
      s := Summarize(orders);
      RevenueIsLineTotal(orders);
      lowStock := LowStockItems(inventory);
    }
  }

  /** Places the order of Pizza and Biryani on a fresh store. */
  method PlaceSampleOrder() returns (store: Store, o: Order)
    ensures fresh(store) && store.Valid()
    ensures store.orders == [o] && o.total == 60.0 && |o.log| == 1 && o.status == Received
  {
    store := new Store();
    PizzaAndBiryani();
    var created := store.CreateOrder(OrderRequest(None, None, None, None, [ById(2), ById(3)]), 1);
    o := created.value;
  }

  /** Moves the only order of a store to a new status. */
  method AdvanceOnlyOrder(store: Store, o: Order, status: string, now: nat) returns (next: Order)
    requires store.Valid() && store.orders == [o] && ParseStatus(Some(status)).Some?
    modifies store
    ensures store.Valid() && store.orders == [next]
    ensures next.status == ParseStatus(Some(status)).value && next.total == o.total && |next.log| == |o.log| + 1
  {
    assert FindOrder(store.orders, 1) == Some(0);
    var r := store.UpdateOrderStatus(1, Some(status), now);
    next := r.value;
  }

  /** The status scenario: an order of Pizza and Biryani totals 60, starts with
      one log entry, and after PREPARING then COMPLETED has three entries and
      has left the kitchen queue; analytics then counts one order worth 60. */
  method OrderLifecycle() returns (total: real, logLength: nat, queueLength: nat, revenue: real)
    ensures total == 60.0 && logLength == 3 && queueLength == 0 && revenue == 60.0
  {
    var store, o1 := PlaceSampleOrder();
    total := o1.total;
    assert ParseStatus(Some("PREPARING")) == Some(Preparing);
    var o2 := AdvanceOnlyOrder(store, o1, "PREPARING", 2);
    assert ParseStatus(Some("COMPLETED")) == Some(Completed);
    var o3 := AdvanceOnlyOrder(store, o2, "COMPLETED", 3);
    logLength := |o3.log|;
    var queue := KitchenQueue(store.orders);
    queueLength := |queue|;
    var summary, _ := store.Analytics();
    assert SumTotals([o3]) == o3.total by {
      assert [o3][..0] == [];
    }
    revenue := summary.totalRevenue;
  }

  /** Submitting the same raw items twice gives two orders with consecutive
      ids and the same total, or fails both times. */
  method SameItemsTwice(store: Store, req: OrderRequest, now1: nat, now2: nat) returns (first: Result<Order>, second: Result<Order>)
    requires store.Valid()
    modifies store
    ensures first.Ok? <==> second.Ok?
    ensures first.Ok? ==> second.value.id == first.value.id + 1 && second.value.total == first.value.total
  {
    first := store.CreateOrder(req, now1);
    second := store.CreateOrder(req, now2);
  }

  /** Analytics over two orders worth 60 and 40 reports two orders and 100 of
      revenue. */
  method TwoOrderRevenue(store: Store) returns (s: Summary)
    requires store.Valid() && |store.orders| == 2
    requires store.orders[0].total == 60.0 && store.orders[1].total == 40.0
    ensures s.totalOrders == 2 && s.totalRevenue == 100.0
  {
    var lowStock;
    s, lowStock := store.Analytics();
    var o := store.orders;
    assert o[..1][..0] == [];
    assert SumTotals(o[..1]) == 60.0;
    assert SumTotals(o) == SumTotals(o[..1]) + 40.0;
  }
}
