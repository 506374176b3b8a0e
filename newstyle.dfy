/** The second variant of the backend (newstyle.py). An object in an order's
    item list is taken at the caller's word (name, price, id) with an integer
    quantity; a bare integer is still looked up in the catalog. There is no
    inventory side effect, and the order list has a kitchen filter instead of
    a separate queue. */
module NewStyle {
  import opened Collections
  import opened Restaurant

  // ---------------------------------------------------------------------
  // Seed data
  // ---------------------------------------------------------------------

  const Menu0: seq<MenuItem> := [
    MenuItem(1, "Karak Tea", 6.0, "Drinks"),
    MenuItem(2, "Pizza", 32.0, "Main"),
    MenuItem(3, "Chicken Biryani", 28.0, "Main"),
    MenuItem(4, "Rice Plate", 15.0, "Side"),
    MenuItem(5, "Mandi", 30.0, "Main"),
    MenuItem(6, "French Fries", 12.0, "Side"),
    MenuItem(7, "Chocolate Cake", 22.0, "Dessert")
  ]

  const Inventory0: seq<InventoryRecord> := [
    InventoryRecord(1, "Rice (kg)", 25.0, "kg", 5.0),
    InventoryRecord(2, "Chicken (kg)", 12.0, "kg", 3.0),
    InventoryRecord(3, "Tea Leaves (kg)", 4.0, "kg", 1.0),
    InventoryRecord(4, "Soft Drinks (bottles)", 40.0, "bottles", 10.0)
  ]

  // ---------------------------------------------------------------------
  // Integer quantities
  // ---------------------------------------------------------------------

  /** A real with no fractional part. */
  predicate Whole(x: real)
  {
    x == x.Floor as real
  }

  /** `int()` of a whole number gives it back, and `int()` always gives a whole number. */
  lemma TruncateWhole(x: real)
    ensures Whole(TruncateTowardZero(x) as real)
    ensures Whole(x) ==> TruncateTowardZero(x) as real == x
  {
    var t := TruncateTowardZero(x);
    assert (t as real).Floor == t;
    if Whole(x) && x < 0.0 {
      assert -x == (-(x.Floor)) as real;
      assert (-x).Floor == -(x.Floor);
    }
  }

  // ---------------------------------------------------------------------
  // Order normalisation
  // ---------------------------------------------------------------------

  /** One pass of the `create_order` loop. An object with both `price` and
      `name` becomes a line item with the caller's id, name and `float(price)`
      and `int(qty)`, qty 1 by default; a conversion that raises stops the
      loop. A bare integer is a catalog lookup with qty 1. Everything else is
      dropped. */
  function NormalizeEntry(menu: seq<MenuItem>, raw: RawItem): (r: EntryOutcome)
    ensures r.Kept? ==> Whole(r.item.qty)
    ensures raw.Inline? ==>
      (r.Dropped? <==> raw.obj.price.None? || raw.obj.name.None?)
    ensures raw.Inline? && r.Kept? ==>
      && r.item.menuId == raw.obj.id
      && Some(r.item.name) == raw.obj.name
      && ToFloat(raw.obj.price.value) == Value(r.item.price)
      && ToInt(GetOr(raw.obj.qty, Number(1.0))) == Value(r.item.qty.Floor)
    ensures r.Crashed? <==>
      && raw.Inline? && !r.Dropped?
      && (!ToInt(GetOr(raw.obj.qty, Number(1.0))).Value? || !ToFloat(raw.obj.price.value).Value?)
    ensures raw.ById? ==>
      && !r.Crashed?
      && (r.Kept? <==> FindMenuItem(menu, raw.id).Some?)
      && (r.Kept? ==>
            var m := menu[FindMenuItem(menu, raw.id).value];
            r.item == LineItem(IntId(m.id), m.name, m.price, 1.0))
    ensures raw.Other? ==> r.Dropped?
  {
    match raw
    case Inline(o) =>
      if o.price.None? || o.name.None? then Dropped
      else
        var qty := ToInt(GetOr(o.qty, Number(1.0)));
        var price := ToFloat(o.price.value);
        if qty.Value? && price.Value? then
          assert (qty.v as real).Floor == qty.v;
          Kept(LineItem(o.id, o.name.value, price.v, qty.v as real))
        else Crashed
    case ById(n) =>
      (match FindMenuItem(menu, n)
       case None => Dropped
       case Some(k) => Kept(LineItem(IntId(menu[k].id), menu[k].name, menu[k].price, 1.0)))
    case Other => Dropped
  }

  /** The line items `create_order` builds from the raw list, or the exception
      that stops it. */
  function Normalize(menu: seq<MenuItem>, raw: seq<RawItem>): Result<seq<LineItem>>
  {
    NormalizeWith(NormalizeEntry, menu, raw)
  }

  /** Normalisation raises exactly when some object entry with a `price` and a
      `name` has a qty `int()` rejects or a price `float()` rejects. */
  lemma NormalizeRaises(menu: seq<MenuItem>, raw: seq<RawItem>)
    ensures Normalize(menu, raw).Err? <==>
      exists i :: 0 <= i < |raw| && raw[i].Inline? && raw[i].obj.price.Some? && raw[i].obj.name.Some?
                  && (!ToInt(GetOr(raw[i].obj.qty, Number(1.0))).Value? || !ToFloat(raw[i].obj.price.value).Value?)
    ensures Normalize(menu, raw).Err? ==> Normalize(menu, raw).error == InternalError
  {
    NormalizeFails(NormalizeEntry, menu, raw);
  }

  /** A successful normalisation has no more lines than entries, and every
      quantity in it is a whole number. */
  lemma NormalizeWhole(menu: seq<MenuItem>, raw: seq<RawItem>)
    ensures Normalize(menu, raw).Ok? ==>
      |Normalize(menu, raw).value| <= |raw|
      && forall li :: li in Normalize(menu, raw).value ==> Whole(li.qty)
  {
    NormalizeKept(NormalizeEntry, menu, raw);
  }

  /** The caller fixes the price of an object entry: a "Pizza" at 1 is
      accepted as it stands, whatever the catalog says. */
  lemma CallerPriceAccepted(menu: seq<MenuItem>, name: string, price: real)
    ensures Normalize(menu, [Inline(InlineObject(IntId(2), Missing, Some(name), Some(Number(price)), None))])
         == Ok([LineItem(IntId(2), name, price, 1.0)])
  {
    var raw := [Inline(InlineObject(IntId(2), Missing, Some(name), Some(Number(price)), None))];
    var li := LineItem(IntId(2), name, price, 1.0);
    assert raw[..0] == [];
    assert TruncateTowardZero(1.0) == 1;
    assert NormalizeEntry(menu, raw[0]) == Kept(li);
    NormalizeStep(NormalizeEntry, menu, raw, 0, []);
    assert raw[..1] == raw;
    assert [] + [li] == [li];
  }

  // ---------------------------------------------------------------------
  // Order queries
  // ---------------------------------------------------------------------

  /** The statuses the `for=kitchen` filter keeps. */
  predicate KitchenVisible(o: Order)
  {
    o.status == Received || o.status == Preparing
  }

  /** All given filters of `list_orders`; an empty parameter is no filter and
      the kitchen filter applies when `for` is exactly "kitchen". */
  predicate MatchesQuery(o: Order, status: string, orderType: string, forParam: string)
  {
    && (status != "" ==> o.status.Name() == status)
    && (orderType != "" ==> o.orderType == orderType)
    && (forParam == "kitchen" ==> KitchenVisible(o))
  }

  /** `list_orders`: exactly the orders matching every given filter, in
      creation order. */
  function ListOrders(orders: seq<Order>, status: string, orderType: string, forParam: string): (r: seq<Order>)
    ensures IsSubsequence(r, orders)
    ensures forall o :: o in r ==> MatchesQuery(o, status, orderType, forParam)
    ensures forall o :: o in orders && MatchesQuery(o, status, orderType, forParam) ==>
      multiset(r)[o] == multiset(orders)[o]
  {
    var pStatus := (o: Order) => status != "" ==> o.status.Name() == status;
    var pType := (o: Order) => orderType != "" ==> o.orderType == orderType;
    var pKitchen := (o: Order) => forParam == "kitchen" ==> KitchenVisible(o);
    var byStatus := if status != "" then Filter(orders, pStatus) else orders;
    var byType := if orderType != "" then Filter(byStatus, pType) else byStatus;
    var r := if forParam == "kitchen" then Filter(byType, pKitchen) else byType;
    ListOrdersCorrect(orders, byStatus, byType, r, status, orderType, forParam, pStatus, pType, pKitchen);
    r
  }

  lemma ListOrdersCorrect(orders: seq<Order>, byStatus: seq<Order>, byType: seq<Order>, r: seq<Order>,
                          status: string, orderType: string, forParam: string,
                          pStatus: Order -> bool, pType: Order -> bool, pKitchen: Order -> bool)
    requires forall o :: pStatus(o) == (status != "" ==> o.status.Name() == status)
    requires forall o :: pType(o) == (orderType != "" ==> o.orderType == orderType)
    requires forall o :: pKitchen(o) == (forParam == "kitchen" ==> KitchenVisible(o))
    requires byStatus == if status != "" then Filter(orders, pStatus) else orders
    requires byType == if orderType != "" then Filter(byStatus, pType) else byStatus
    requires r == if forParam == "kitchen" then Filter(byType, pKitchen) else byType
    ensures IsFilterOf(r, orders, (o: Order) => MatchesQuery(o, status, orderType, forParam))
  {
    var pBoth := (o: Order) => pStatus(o) && pType(o);
    if status != "" { FilterIsFilterOf(orders, pStatus); } else { FilterOfSelf(orders, pStatus); }
    if orderType != "" { FilterIsFilterOf(byStatus, pType); } else { FilterOfSelf(byStatus, pType); }
    FilterOfFilter(byType, byStatus, orders, pStatus, pType, pBoth);
    if forParam == "kitchen" { FilterIsFilterOf(byType, pKitchen); } else { FilterOfSelf(byType, pKitchen); }
    FilterOfFilter(r, byType, orders, pBoth, pKitchen, (o: Order) => MatchesQuery(o, status, orderType, forParam));
  }

  // ---------------------------------------------------------------------
  // The store
  // ---------------------------------------------------------------------

  /** Every line item of every order has a whole quantity. */
  ghost predicate WholeQuantities(orders: seq<Order>)
  {
    forall i, j :: 0 <= i < |orders| && 0 <= j < |orders[i].items| ==> Whole(orders[i].items[j].qty)
  }

  /** Analytics re-applies `int()` to each stored quantity; on a store whose
      quantities are whole that changes nothing, so the counts are the plain
      sums of quantities. */
  lemma AnalyticsTruncationIsIdentity(orders: seq<Order>)
    requires WholeQuantities(orders)
    ensures forall li :: li in AllItems(orders) ==> TruncateTowardZero(li.qty) as real == li.qty
  {
    AllItemsWhole(orders);
    forall li | li in AllItems(orders) ensures TruncateTowardZero(li.qty) as real == li.qty {
      TruncateWhole(li.qty);
    }
  }

  lemma {:induction false} AllItemsWhole(orders: seq<Order>)
    requires WholeQuantities(orders)
    ensures forall li :: li in AllItems(orders) ==> Whole(li.qty)
  {
    if orders != [] {
      var init := orders[..|orders| - 1];
      assert WholeQuantities(init) by {
        forall i, j | 0 <= i < |init| && 0 <= j < |init[i].items| ensures Whole(init[i].items[j].qty) {
          assert init[i] == orders[i];
        }
      }
      AllItemsWhole(init);
      var last := orders[|orders| - 1];
      assert AllItems(orders) == AllItems(init) + last.items;
      forall li | li in last.items ensures Whole(li.qty) {
        var j :| 0 <= j < |last.items| && last.items[j] == li;
      }
    }
  }

  /** The process-wide lists MENU, INVENTORY, RESERVATIONS and ORDERS. */
  class Store {
    var menu: seq<MenuItem>
    var inventory: seq<InventoryRecord>
    var reservations: seq<Reservation>
    var orders: seq<Order>

    ghost predicate Valid()
      reads this
    {
      OrdersValid(orders) && ReservationsValid(reservations) && WholeQuantities(orders)
    }

    constructor ()
      ensures Valid()
      ensures menu == Menu0 && inventory == Inventory0 && reservations == [] && orders == []
    {
      menu := Menu0;
      inventory := Inventory0;
      reservations := [];
      orders := [];
    }

    /** `update_menu_item`: sets the fields present in the request, in the
        order name, price, category. A price `float()` rejects raises (500),
        and the name already set stays set. */
    method UpdateMenuItem(id: int, patch: MenuPatch) returns (r: Result<MenuItem>)
      modifies this`menu
      ensures FindMenuItem(old(menu), id).None? ==> r == Err(NotFound) && menu == old(menu)
      ensures FindMenuItem(old(menu), id).Some? ==>
        var k := FindMenuItem(old(menu), id).value;
        var m := old(menu)[k];
        var price := FloatField(patch.price, m.price);
        && |menu| == |old(menu)|
        && (forall j :: 0 <= j < |menu| && j != k ==> menu[j] == old(menu)[j])
        && menu[k].id == m.id
        && menu[k].name == GetOr(patch.name, m.name)
        && (if price.Value? then
              && r == Ok(menu[k])
              && menu[k].price == price.v
              && menu[k].category == GetOr(patch.category, m.category)
            else
              r == Err(InternalError) && menu[k].price == m.price && menu[k].category == m.category)
    {
      var found := FindMenuItem(menu, id);
      if found.None? {
        return Err(NotFound);
      }
      var k := found.value;
      if patch.name.Some? {
        menu := menu[k := menu[k].(name := patch.name.value)];
      }
      if patch.price.Some? {
        var p := ToFloat(patch.price.value);
        if !p.Value? {
          return Err(InternalError);
        }
        menu := menu[k := menu[k].(price := p.v)];
      }
      if patch.category.Some? {
        menu := menu[k := menu[k].(category := patch.category.value)];
      }
      r := Ok(menu[k]);
    }

    /** `update_inventory_item`: sets the quantity, then the threshold, when
        present. A value `float()` rejects raises (500); a quantity set before
        a bad threshold stays set. */
    method UpdateInventoryItem(id: int, patch: InventoryPatch) returns (r: Result<InventoryRecord>)
      modifies this`inventory
      ensures FindInventoryRecord(old(inventory), id).None? ==> r == Err(NotFound) && inventory == old(inventory)
      ensures FindInventoryRecord(old(inventory), id).Some? ==>
        var k := FindInventoryRecord(old(inventory), id).value;
        var x := old(inventory)[k];
        var qty := FloatField(patch.qty, x.quantity);
        var threshold := FloatField(patch.lowStockThreshold, x.lowStockThreshold);
        && |inventory| == |old(inventory)|
        && (forall j :: 0 <= j < |inventory| && j != k ==> inventory[j] == old(inventory)[j])
        && inventory[k].(quantity := x.quantity, lowStockThreshold := x.lowStockThreshold) == x
        && (if !qty.Value? then
              r == Err(InternalError) && inventory[k] == x
            else
              && inventory[k].quantity == qty.v
              && if !threshold.Value? then
                   r == Err(InternalError) && inventory[k].lowStockThreshold == x.lowStockThreshold
                 else
                   r == Ok(inventory[k]) && inventory[k].lowStockThreshold == threshold.v)
    {
      var found := FindInventoryRecord(inventory, id);
      if found.None? {
        return Err(NotFound);
      }
      var k := found.value;
      if patch.qty.Some? {
        var q := ToFloat(patch.qty.value);
        if !q.Value? {
          return Err(InternalError);
        }
        inventory := inventory[k := inventory[k].(quantity := q.v)];
      }
      if patch.lowStockThreshold.Some? {
        var t := ToFloat(patch.lowStockThreshold.value);
        if !t.Value? {
          return Err(InternalError);
        }
        inventory := inventory[k := inventory[k].(lowStockThreshold := t.v)];
      }
      r := Ok(inventory[k]);
    }

    /** `create_reservation`: appends a reservation with the next id. */
    method CreateReservation(req: ReservationRequest, now: nat) returns (r: Reservation)
      requires Valid()
      modifies this`reservations
      ensures Valid()
      ensures r == NewReservation(req, |old(reservations)| + 1, now)
      ensures reservations == old(reservations) + [r]
    {
      r := NewReservation(req, |reservations| + 1, now);
      reservations := reservations + [r];
    }

    /** `create_order`: normalises the raw items, sums the total and appends an
        order with the next id, status RECEIVED and one log entry. An exception
        while normalising leaves the orders as they were. */
    method CreateOrder(req: OrderRequest, now: nat) returns (r: Result<Order>)
      requires Valid()
      modifies this`orders
      ensures Valid()
      ensures Normalize(menu, req.items).Err? ==> r == Err(InternalError) && orders == old(orders)
      ensures Normalize(menu, req.items).Ok? ==>
        r.Ok? &&
        var o := r.value;
        && o.id == |old(orders)| + 1
        && o.customerName == GetOr(req.customerName, "Guest")
        && o.orderType == GetOr(req.orderType, "WALK_IN")
        && o.tableNo == req.tableNo && o.deliveryAddress == req.deliveryAddress
        && o.items == Normalize(menu, req.items).value
        && o.total == LineTotal(o.items)
        && o.status == Received
        && o.createdAt == now && o.updatedAt == now
        && o.log == [LogEntry(Received, now, None)]
        && orders == old(orders) + [o]
    {
      var normalized, total := NormalizeItems(NormalizeEntry, menu, req.items);
      if normalized.Err? {
        return Err(InternalError);
      }
      var items := normalized.value;
      NormalizeWhole(menu, req.items);
      var order := Order(|orders| + 1, GetOr(req.customerName, "Guest"), GetOr(req.orderType, "WALK_IN"),
                         req.tableNo, req.deliveryAddress, items, total, Received, now, now, []);
      order := AppendLog(order, LogEntry(Received, now, None));
      OrdersValidAppend(orders, order);
      WholeQuantitiesAppend(orders, order);
      orders := orders + [order];
      r := Ok(order);
    }

    /** `update_order_status`: an unknown status answers 400 before the order
        is looked up; a known one replaces the status of the order, from
        whatever it was, and logs it. */
    method UpdateOrderStatus(id: int, status: Option<string>, now: nat) returns (r: Result<Order>)
      requires Valid()
      modifies this`orders
      ensures Valid()
      ensures ParseStatus(status).None? ==> r == Err(InvalidInput) && orders == old(orders)
      ensures ParseStatus(status).Some? && FindOrder(old(orders), id).None? ==>
        r == Err(NotFound) && orders == old(orders)
      ensures r.Ok? <==> ParseStatus(status).Some? && 1 <= id <= |old(orders)|
      ensures ParseStatus(status).Some? && FindOrder(old(orders), id).Some? ==>
        var k := FindOrder(old(orders), id).value;
        var s := ParseStatus(status).value;
        var o := old(orders)[k];
        && k == id - 1
        && |orders| == |old(orders)|
        && (forall j :: 0 <= j < |orders| && j != k ==> orders[j] == old(orders)[j])
        && orders[k] == o.(status := s, updatedAt := now, log := o.log + [LogEntry(s, now, None)])
        && r == Ok(orders[k])
    {
      SequentialLookup(orders, id);
      var s := ParseStatus(status);
      if s.None? {
        return Err(InvalidInput);
      }
      var found := FindOrder(orders, id);
      if found.None? {
        return Err(NotFound);
      }
      var k := found.value;
      var o := orders[k].(status := s.value, updatedAt := now);
      o := AppendLog(o, LogEntry(s.value, now, None));
      OrdersValidUpdate(orders, k, o);
      WholeQuantitiesUpdate(orders, k, o);
      orders := orders[k := o];
      r := Ok(o);
    }

    /** `analytics`: order count, revenue over every order whatever its status,
        and the per-name quantity counts in non-increasing order. */
    method Analytics() returns (s: Summary)
      requires Valid()
      ensures SummaryOf(s, orders)
      ensures s.topItems == TopItems(Tally(AllItems(orders)))
      ensures s.totalRevenue == LineTotal(AllItems(orders))
    {
      AnalyticsTruncationIsIdentity(orders);
      s := Summarize(orders);
      RevenueIsLineTotal(orders);
    }
  }

  lemma WholeQuantitiesAppend(orders: seq<Order>, o: Order)
    requires WholeQuantities(orders) && forall li :: li in o.items ==> Whole(li.qty)
    ensures WholeQuantities(orders + [o])
  {
    var s := orders + [o];
    forall i, j | 0 <= i < |s| && 0 <= j < |s[i].items| ensures Whole(s[i].items[j].qty) {
      if i == |orders| { assert s[i].items[j] in o.items; }
    }
  }

  lemma WholeQuantitiesUpdate(orders: seq<Order>, k: nat, o: Order)
    requires WholeQuantities(orders) && k < |orders| && o.items == orders[k].items
    ensures WholeQuantities(orders[k := o])
  {
  }
}
