/** The entities of the restaurant backend and the order-engine logic that both
    of its variants (oldstyle.py and newstyle.py) share: catalog and order
    lookups, order totals, revenue, and the per-name sales tally behind the
    analytics endpoint. */
module Restaurant {
  import opened Collections

  // ---------------------------------------------------------------------
  // Errors
  // ---------------------------------------------------------------------

  /** NotFound is a 404 reply, InvalidInput a 400 reply, and InternalError an
      exception the handler does not catch (a 500 reply from the framework). */
  datatype Error = NotFound | InvalidInput | InternalError

  datatype Result<T> = Ok(value: T) | Err(error: Error)

  // ---------------------------------------------------------------------
  // Order status
  // ---------------------------------------------------------------------

  datatype Status = Received | Preparing | Ready | OutForDelivery | Completed | Cancelled
  {
    /** The status as it appears on the wire. */
    function Name(): string
    {
      match this
      case Received => "RECEIVED"
      case Preparing => "PREPARING"
      case Ready => "READY"
      case OutForDelivery => "OUT_FOR_DELIVERY"
      case Completed => "COMPLETED"
      case Cancelled => "CANCELLED"
    }
  }

  /** The six accepted status strings, in the order the source lists them. */
  const ValidStatuses: seq<string> :=
    ["RECEIVED", "PREPARING", "READY", "OUT_FOR_DELIVERY", "COMPLETED", "CANCELLED"]

  /** The membership test `new_status in valid_statuses`, answered with the
      status it names. `None` stands for a missing or non-string `status`. */
  function ParseStatus(s: Option<string>): (r: Option<Status>)
    ensures r.Some? <==> s.Some? && s.value in ValidStatuses
    ensures r.Some? ==> r.value.Name() == s.value
  {
    if s.None? then None
    else if s.value == "RECEIVED" then Some(Received)
    else if s.value == "PREPARING" then Some(Preparing)
    else if s.value == "READY" then Some(Ready)
    else if s.value == "OUT_FOR_DELIVERY" then Some(OutForDelivery)
    else if s.value == "COMPLETED" then Some(Completed)
    else if s.value == "CANCELLED" then Some(Cancelled)
    else None
  }

  /** Every status survives the trip to its wire name and back. */
  lemma ParseName(st: Status)
    ensures ParseStatus(Some(st.Name())) == Some(st)
  {
  }

  // ---------------------------------------------------------------------
  // Decoded request values
  // ---------------------------------------------------------------------

  /** A JSON value in an id position as the handlers see it: absent or null,
      a number equal to the integer `n` (Python's `==` lets 2.0 and `true` match
      ids 2 and 1), or any other value, with its Python truthiness. */
  datatype IdValue = Missing | IntId(n: int) | OtherId(truthy: bool)

  predicate Truthy(v: IdValue)
  {
    match v
    case Missing => false
    case IntId(n) => n != 0
    case OtherId(t) => t
  }

  /** A JSON value in a numeric position: a number; a string, with what
      Python's `float()` and `int()` make of it (`None` where they raise
      ValueError: `int()` refuses "2.5", which `float()` accepts); or a value
      of any other type (null, a list, an object), on which both raise
      TypeError. */
  datatype JsonScalar = Number(r: real) | Text(asFloat: Option<real>, asInt: Option<int>) | OtherValue

  /** The outcome of a Python conversion: the value, or the exception raised. */
  datatype Converted<T> = Value(v: T) | ValueErr | TypeErr

  /** Python's `int()` on a number: drops the fractional part, rounding toward zero. */
  function TruncateTowardZero(x: real): (t: int)
    ensures x >= 0.0 ==> 0 <= t && t as real <= x < t as real + 1.0
    ensures x < 0.0 ==> t <= 0 && t as real - 1.0 < x <= t as real
  {
    if x >= 0.0 then x.Floor else -((-x).Floor)
  }

  /** Python's `float(v)`. */
  function ToFloat(v: JsonScalar): Converted<real>
  {
    match v
    case Number(r) => Value(r)
    case Text(f, _) => if f.Some? then Value(f.value) else ValueErr
    case OtherValue => TypeErr
  }

  /** A numeric field of an update request converted with `float()`, or the
      current value when the field is absent. */
  function FloatField(field: Option<JsonScalar>, current: real): Converted<real>
  {
    if field.Some? then ToFloat(field.value) else Value(current)
  }

  /** Python's `int(v)`. */
  function ToInt(v: JsonScalar): Converted<int>
  {
    match v
    case Number(r) => Value(TruncateTowardZero(r))
    case Text(_, i) => if i.Some? then Value(i.value) else ValueErr
    case OtherValue => TypeErr
  }

  /** A JSON object in an order's `items` list; each field is `None` when its
      key is absent. */
  datatype InlineObject = InlineObject(
    id: IdValue,
    menuId: IdValue,
    name: Option<string>,
    price: Option<JsonScalar>,
    qty: Option<JsonScalar>)

  /** An element of an order's `items` list: a bare integer (a menu id), an
      object, or anything else. */
  datatype RawItem = ById(id: int) | Inline(obj: InlineObject) | Other

  /** What normalising one raw item does: drop it, keep a line item, or raise. */
  datatype EntryOutcome = Dropped | Kept(item: LineItem) | Crashed

  // ---------------------------------------------------------------------
  // Entities
  // ---------------------------------------------------------------------

  datatype MenuItem = MenuItem(id: int, name: string, price: real, category: string)

  datatype InventoryRecord = InventoryRecord(
    id: int, name: string, quantity: real, unit: string, lowStockThreshold: real)

  datatype Reservation = Reservation(
    id: nat, name: string, date: string, time: string, size: int, createdAt: nat)

  datatype ReservationRequest = ReservationRequest(
    name: Option<string>, date: Option<string>, time: Option<string>, size: Option<int>)

  /** One line of an order, frozen when the order is created. */
  datatype LineItem = LineItem(menuId: IdValue, name: string, price: real, qty: real)

  /** One entry of an order's log; the newer variant records no message. */
  datatype LogEntry = LogEntry(status: Status, timestamp: nat, message: Option<string>)

  datatype Order = Order(
    id: nat,
    customerName: string,
    orderType: string,
    tableNo: Option<string>,
    deliveryAddress: Option<string>,
    items: seq<LineItem>,
    total: real,
    status: Status,
    createdAt: nat,
    updatedAt: nat,
    log: seq<LogEntry>)

  datatype OrderRequest = OrderRequest(
    customerName: Option<string>,
    orderType: Option<string>,
    tableNo: Option<string>,
    deliveryAddress: Option<string>,
    items: seq<RawItem>)

  /** The fields a menu PUT may carry. */
  datatype MenuPatch = MenuPatch(name: Option<string>, price: Option<JsonScalar>, category: Option<string>)

  /** The fields an inventory PUT may carry. */
  datatype InventoryPatch = InventoryPatch(qty: Option<JsonScalar>, lowStockThreshold: Option<JsonScalar>)

  function GetOr<T>(o: Option<T>, default: T): T
  {
    if o.Some? then o.value else default
  }

  // ---------------------------------------------------------------------
  // Lookups by id (`next((x for x in XS if x["id"] == id), None)`)
  // ---------------------------------------------------------------------

  /** The position of the first menu item with this id. */
  function FindMenuItem(menu: seq<MenuItem>, id: int): (r: Option<nat>)
    ensures r.None? <==> forall j :: 0 <= j < |menu| ==> menu[j].id != id
    ensures r.Some? ==> r.value < |menu| && menu[r.value].id == id
    ensures r.Some? ==> forall j :: 0 <= j < r.value ==> menu[j].id != id
  {
    FirstIndex(menu, (m: MenuItem) => m.id == id)
  }

  /** The position of the first inventory record with this id. */
  function FindInventoryRecord(inventory: seq<InventoryRecord>, id: int): (r: Option<nat>)
    ensures r.None? <==> forall j :: 0 <= j < |inventory| ==> inventory[j].id != id
    ensures r.Some? ==> r.value < |inventory| && inventory[r.value].id == id
    ensures r.Some? ==> forall j :: 0 <= j < r.value ==> inventory[j].id != id
  {
    FirstIndex(inventory, (x: InventoryRecord) => x.id == id)
  }

  /** The position of the first order with this id. */
  function FindOrder(orders: seq<Order>, id: int): (r: Option<nat>)
    ensures r.None? <==> forall j :: 0 <= j < |orders| ==> orders[j].id != id
    ensures r.Some? ==> r.value < |orders| && orders[r.value].id == id
    ensures r.Some? ==> forall j :: 0 <= j < r.value ==> orders[j].id != id
  {
    FirstIndex(orders, (o: Order) => o.id == id)
  }

  /** The `get_order` handler of both variants. */
  function GetOrder(orders: seq<Order>, id: int): (r: Result<Order>)
    ensures r.Ok? <==> exists j :: 0 <= j < |orders| && orders[j].id == id
    ensures r.Ok? ==> r.value in orders && r.value.id == id
    ensures r.Err? ==> r.error == NotFound
  {
    match FindOrder(orders, id)
    case None => Err(NotFound)
    case Some(k) => Ok(orders[k])
  }

  // ---------------------------------------------------------------------
  // The order store's invariant
  // ---------------------------------------------------------------------

  /** An order as every handler leaves it: its log starts with the creation
      entry, the last entry records the current status, and the total is the
      sum over its line items. */
  ghost predicate WellFormedOrder(o: Order)
  {
    && |o.log| >= 1
    && o.log[0].status == Received
    && o.log[|o.log| - 1].status == o.status
    && o.total == LineTotal(o.items)
  }

  /** Ids are `len + 1` at creation, so the order at position i has id i + 1. */
  ghost predicate OrdersValid(orders: seq<Order>)
  {
    forall i :: 0 <= i < |orders| ==> orders[i].id == i + 1 && WellFormedOrder(orders[i])
  }

  ghost predicate ReservationsValid(reservations: seq<Reservation>)
  {
    forall i :: 0 <= i < |reservations| ==> reservations[i].id == i + 1
  }

  /** Appending a well-formed order with the next id keeps the store valid. */
  lemma OrdersValidAppend(orders: seq<Order>, o: Order)
    requires OrdersValid(orders) && o.id == |orders| + 1 && WellFormedOrder(o)
    ensures OrdersValid(orders + [o])
  {
  }

  /** Replacing an order by a well-formed one with the same id keeps the store
      valid. */
  lemma OrdersValidUpdate(orders: seq<Order>, k: nat, o: Order)
    requires OrdersValid(orders) && k < |orders| && o.id == orders[k].id && WellFormedOrder(o)
    ensures OrdersValid(orders[k := o])
  {
  }

  /** With sequential ids, ids strictly increase and the lookup by id is a
      direct index. */
  lemma SequentialLookup(orders: seq<Order>, id: int)
    requires OrdersValid(orders)
    ensures forall i, j :: 0 <= i < j < |orders| ==> orders[i].id < orders[j].id
    ensures FindOrder(orders, id) == if 1 <= id <= |orders| then Some(id - 1) else None
  {
    if 1 <= id <= |orders| {
      assert orders[id - 1].id == id;
    }
  }

  /** `add_log`: the log grows by exactly this entry and nothing else changes. */
  function AppendLog(o: Order, e: LogEntry): (r: Order)
    ensures r.log == o.log + [e]
    ensures r.(log := o.log) == o
  {
    o.(log := o.log + [e])
  }

  /** A new reservation with the handler's defaults for missing fields. */
  function NewReservation(req: ReservationRequest, id: nat, now: nat): (r: Reservation)
    ensures r.id == id && r.createdAt == now
    ensures r.name == (if req.name.Some? then req.name.value else "Guest")
    ensures r.date == (if req.date.Some? then req.date.value else "")
    ensures r.time == (if req.time.Some? then req.time.value else "")
    ensures r.size == (if req.size.Some? then req.size.value else 1)
  {
    Reservation(id, GetOr(req.name, "Guest"), GetOr(req.date, ""), GetOr(req.time, ""),
                GetOr(req.size, 1), now)
  }

  // ---------------------------------------------------------------------
  // Totals and revenue
  // ---------------------------------------------------------------------

  /** Σ price × qty over the line items, summed from the left. */
  function LineTotal(items: seq<LineItem>): real
  {
    if items == [] then 0.0
    else LineTotal(items[..|items| - 1]) + items[|items| - 1].price * items[|items| - 1].qty
  }

  /** Appending a line adds its price times its quantity. */
  lemma LineTotalSnoc(items: seq<LineItem>, li: LineItem)
    ensures LineTotal(items + [li]) == LineTotal(items) + li.price * li.qty
  {
    assert (items + [li])[..|items|] == items;
  }

  lemma {:induction false} LineTotalConcat(a: seq<LineItem>, b: seq<LineItem>)
    ensures LineTotal(a + b) == LineTotal(a) + LineTotal(b)
  {
    if b != [] {
      LineTotalConcat(a, b[..|b| - 1]);
      assert (a + b)[..|a + b| - 1] == a + b[..|b| - 1];
    } else {
      assert a + b == a;
    }
  }

  /** `sum(o["total"] for o in ORDERS)`: every order counts, whatever its status. */
  function SumTotals(orders: seq<Order>): real
  {
    if orders == [] then 0.0 else SumTotals(orders[..|orders| - 1]) + orders[|orders| - 1].total
  }

  /** The line items of all orders, order by order. */
  function AllItems(orders: seq<Order>): seq<LineItem>
  {
    if orders == [] then [] else AllItems(orders[..|orders| - 1]) + orders[|orders| - 1].items
  }

  /** When every total is the sum over its own items, revenue is the sum over
      every line item ever sold. */
  lemma {:induction false} RevenueIsLineTotal(orders: seq<Order>)
    requires forall i :: 0 <= i < |orders| ==> orders[i].total == LineTotal(orders[i].items)
    ensures SumTotals(orders) == LineTotal(AllItems(orders))
  {
    if orders != [] {
      var init := orders[..|orders| - 1];
      RevenueIsLineTotal(init);
      LineTotalConcat(AllItems(init), orders[|orders| - 1].items);
    }
  }

  /** Revenue depends on totals only: an order changed in any other field
      (its status, say) leaves it unchanged. */
  lemma {:induction false} SumTotalsIgnoresStatus(orders: seq<Order>, i: nat, o: Order)
    requires i < |orders| && o.total == orders[i].total
    ensures SumTotals(orders[i := o]) == SumTotals(orders)
  {
    var n := |orders|;
    if i < n - 1 {
      SumTotalsIgnoresStatus(orders[..n - 1], i, o);
      assert orders[i := o][..n - 1] == orders[..n - 1][i := o];
    } else {
      assert orders[i := o][..n - 1] == orders[..n - 1];
    }
  }

  // ---------------------------------------------------------------------
  // Order normalisation (the item loop of `create_order`)
  // ---------------------------------------------------------------------

  /** The item loop of `create_order` as a fold over the raw list: each entry in
      turn is dropped, kept or raises, and the first that raises ends the loop.
      `entry` is what one variant does with one entry. */
  function NormalizeWith(entry: (seq<MenuItem>, RawItem) -> EntryOutcome, menu: seq<MenuItem>, raw: seq<RawItem>)
    : Result<seq<LineItem>>
  {
    if raw == [] then Ok([])
    else
      match NormalizeWith(entry, menu, raw[..|raw| - 1])
      case Err(e) => Err(e)
      case Ok(items) =>
        match entry(menu, raw[|raw| - 1])
        case Dropped => Ok(items)
        case Kept(li) => Ok(items + [li])
        case Crashed => Err(InternalError)
  }

  /** Normalisation fails exactly when some entry raises, and then with the
      uncaught exception. */
  lemma {:induction false} NormalizeFails(entry: (seq<MenuItem>, RawItem) -> EntryOutcome,
                                          menu: seq<MenuItem>, raw: seq<RawItem>)
    ensures NormalizeWith(entry, menu, raw).Err? <==> exists i :: 0 <= i < |raw| && entry(menu, raw[i]).Crashed?
    ensures NormalizeWith(entry, menu, raw).Err? ==> NormalizeWith(entry, menu, raw).error == InternalError
  {
    if raw != [] {
      var init := raw[..|raw| - 1];
      NormalizeFails(entry, menu, init);
      if NormalizeWith(entry, menu, init).Err? {
        var i :| 0 <= i < |init| && entry(menu, init[i]).Crashed?;
        assert raw[i] == init[i];
      } else if !entry(menu, raw[|raw| - 1]).Crashed? {
        forall i | 0 <= i < |raw| ensures !entry(menu, raw[i]).Crashed? {
          if i < |init| { assert raw[i] == init[i]; }
        }
      }
    }
  }

  /** A successful normalisation has at most one line per entry, and each line
      is one an entry kept. */
  lemma {:induction false} NormalizeKept(entry: (seq<MenuItem>, RawItem) -> EntryOutcome,
                                         menu: seq<MenuItem>, raw: seq<RawItem>)
    ensures NormalizeWith(entry, menu, raw).Ok? ==>
      && |NormalizeWith(entry, menu, raw).value| <= |raw|
      && forall li :: li in NormalizeWith(entry, menu, raw).value ==>
           exists i :: 0 <= i < |raw| && entry(menu, raw[i]) == Kept(li)
  {
    if raw != [] && NormalizeWith(entry, menu, raw).Ok? {
      var init := raw[..|raw| - 1];
      NormalizeKept(entry, menu, init);
      forall li | li in NormalizeWith(entry, menu, raw).value
        ensures exists i :: 0 <= i < |raw| && entry(menu, raw[i]) == Kept(li)
      {
        if li in NormalizeWith(entry, menu, init).value {
          var i :| 0 <= i < |init| && entry(menu, init[i]) == Kept(li);
          assert raw[i] == init[i];
        } else {
          assert entry(menu, raw[|raw| - 1]) == Kept(li);
        }
      }
    }
  }

  /** One more raw entry extends a successful normalisation by its outcome. */
  lemma NormalizeStep(entry: (seq<MenuItem>, RawItem) -> EntryOutcome, menu: seq<MenuItem>,
                      raw: seq<RawItem>, i: nat, items: seq<LineItem>)
    requires i < |raw| && NormalizeWith(entry, menu, raw[..i]) == Ok(items)
    ensures entry(menu, raw[i]).Dropped? ==> NormalizeWith(entry, menu, raw[..i + 1]) == Ok(items)
    ensures entry(menu, raw[i]).Kept? ==>
      NormalizeWith(entry, menu, raw[..i + 1]) == Ok(items + [entry(menu, raw[i]).item])
    ensures entry(menu, raw[i]).Crashed? ==> NormalizeWith(entry, menu, raw[..i + 1]) == Err(InternalError)
  {
    assert raw[..i + 1][..i] == raw[..i];
  }

  /** Once a prefix fails, the whole list fails. */
  lemma {:induction false} NormalizeErrExtends(entry: (seq<MenuItem>, RawItem) -> EntryOutcome,
                                               menu: seq<MenuItem>, raw: seq<RawItem>, i: nat)
    requires i <= |raw| && NormalizeWith(entry, menu, raw[..i]).Err?
    ensures NormalizeWith(entry, menu, raw) == Err(InternalError)
    decreases |raw| - i
  {
    NormalizeFails(entry, menu, raw[..i]);
    if i < |raw| {
      assert raw[..i + 1][..i] == raw[..i];
      NormalizeErrExtends(entry, menu, raw, i + 1);
    } else {
      assert raw[..i] == raw;
    }
  }

  /** A kept entry extends a successful normalisation and its total. */
  lemma KeepStep(entry: (seq<MenuItem>, RawItem) -> EntryOutcome, menu: seq<MenuItem>,
                 raw: seq<RawItem>, i: nat, items: seq<LineItem>, li: LineItem)
    requires i < |raw| && NormalizeWith(entry, menu, raw[..i]) == Ok(items) && entry(menu, raw[i]) == Kept(li)
    ensures NormalizeWith(entry, menu, raw[..i + 1]) == Ok(items + [li])
    ensures LineTotal(items + [li]) == LineTotal(items) + li.price * li.qty
  {
    NormalizeStep(entry, menu, raw, i, items);
    LineTotalSnoc(items, li);
  }

  /** An entry that raises makes the whole normalisation fail. */
  lemma CrashStep(entry: (seq<MenuItem>, RawItem) -> EntryOutcome, menu: seq<MenuItem>,
                  raw: seq<RawItem>, i: nat, items: seq<LineItem>)
    requires i < |raw| && NormalizeWith(entry, menu, raw[..i]) == Ok(items) && entry(menu, raw[i]).Crashed?
    ensures NormalizeWith(entry, menu, raw) == Err(InternalError)
  {
    NormalizeStep(entry, menu, raw, i, items);
    NormalizeErrExtends(entry, menu, raw, i + 1);
  }

  /** The item loop of `create_order`: walks the raw entries, collecting line
      items and summing price times quantity, and stops at the first entry
      that raises. */
  method NormalizeItems(entry: (seq<MenuItem>, RawItem) -> EntryOutcome, menu: seq<MenuItem>, raw: seq<RawItem>)
    returns (r: Result<seq<LineItem>>, total: real)
    ensures r == NormalizeWith(entry, menu, raw)
    ensures r.Ok? ==> total == LineTotal(r.value)
  {
    var items: seq<LineItem> := [];
    total := 0.0;
    var i := 0;
    while i < |raw|
      invariant 0 <= i <= |raw|
      invariant NormalizeWith(entry, menu, raw[..i]) == Ok(items)
      invariant total == LineTotal(items)
    {
      match entry(menu, raw[i]) {
        case Dropped =>
          NormalizeStep(entry, menu, raw, i, items);
        case Kept(li) =>
          KeepStep(entry, menu, raw, i, items, li);
          items := items + [li];
          total := total + li.price * li.qty;
        case Crashed =>
          CrashStep(entry, menu, raw, i, items);
          return Err(InternalError), 0.0;
      }
      i := i + 1;
    }
    assert raw[..i] == raw;
    r := Ok(items);
  }

  // ---------------------------------------------------------------------
  // Sales tally (the `counts` dict of the analytics handlers)
  // ---------------------------------------------------------------------

  datatype NameCount = NameCount(name: string, count: real)

  /** `counts[name] = counts.get(name, 0) + qty` on an insertion-ordered dict. */
  function Bump(t: seq<NameCount>, name: string, q: real): (r: seq<NameCount>)
  {
    if t == [] then [NameCount(name, q)]
    else if t[0].name == name then [NameCount(name, t[0].count + q)] + t[1..]
    else [t[0]] + Bump(t[1..], name, q)
  }

  /** The dict after counting every line item in turn. */
  function Tally(items: seq<LineItem>): seq<NameCount>
  {
    if items == [] then []
    else
      var last := items[|items| - 1];
      Bump(Tally(items[..|items| - 1]), last.name, last.qty)
  }

  /** The count stored under `name`, 0 when absent (`counts.get(name, 0)`). */
  function CountOf(t: seq<NameCount>, name: string): real
  {
    if t == [] then 0.0 else if t[0].name == name then t[0].count else CountOf(t[1..], name)
  }

  /** The summed quantity of the line items called `name`. */
  function QtySold(items: seq<LineItem>, name: string): real
  {
    if items == [] then 0.0
    else
      var last := items[|items| - 1];
      QtySold(items[..|items| - 1], name) + (if last.name == name then last.qty else 0.0)
  }

  ghost predicate DistinctNames(t: seq<NameCount>)
  {
    forall i, j :: 0 <= i < j < |t| ==> t[i].name != t[j].name
  }

  ghost function Names(t: seq<NameCount>): set<string>
  {
    set e | e in t :: e.name
  }

  lemma {:induction false} BumpCount(t: seq<NameCount>, name: string, q: real, n: string)
    ensures CountOf(Bump(t, name, q), n) == CountOf(t, n) + (if n == name then q else 0.0)
  {
    if t != [] && t[0].name != name {
      BumpCount(t[1..], name, q, n);
    }
  }

  lemma NamesCons(e: NameCount, t: seq<NameCount>)
    ensures Names([e] + t) == {e.name} + Names(t)
  {
    assert forall x :: x in [e] + t <==> x == e || x in t;
  }

  lemma {:induction false} BumpNames(t: seq<NameCount>, name: string, q: real)
    ensures Names(Bump(t, name, q)) == Names(t) + {name}
  {
    if t == [] {
      assert Names([NameCount(name, q)]) == {name} by { NamesCons(NameCount(name, q), []); }
    } else {
      assert t == [t[0]] + t[1..];
      NamesCons(t[0], t[1..]);
      if t[0].name == name {
        NamesCons(NameCount(name, t[0].count + q), t[1..]);
      } else {
        BumpNames(t[1..], name, q);
        NamesCons(t[0], Bump(t[1..], name, q));
      }
    }
  }

  lemma DistinctTail(t: seq<NameCount>)
    requires t != [] && DistinctNames(t)
    ensures DistinctNames(t[1..]) && t[0].name !in Names(t[1..])
  {
    forall i, j | 0 <= i < j < |t[1..]| ensures t[1..][i].name != t[1..][j].name {
      assert t[1..][i] == t[i + 1] && t[1..][j] == t[j + 1];
    }
    forall e | e in t[1..] ensures e.name != t[0].name {
      var k :| 0 <= k < |t[1..]| && t[1..][k] == e;
      assert t[k + 1] == e;
    }
  }

  lemma DistinctCons(e: NameCount, t: seq<NameCount>)
    requires DistinctNames(t) && e.name !in Names(t)
    ensures DistinctNames([e] + t)
  {
    var r := [e] + t;
    forall i, j | 0 <= i < j < |r| ensures r[i].name != r[j].name {
      assert r[j] == t[j - 1];
      if i == 0 {
        assert t[j - 1] in t;
      } else {
        assert r[i] == t[i - 1];
      }
    }
  }

  lemma {:induction false} BumpDistinct(t: seq<NameCount>, name: string, q: real)
    requires DistinctNames(t)
    ensures DistinctNames(Bump(t, name, q))
  {
    if t == [] {
    } else {
      DistinctTail(t);
      if t[0].name == name {
        DistinctCons(NameCount(name, t[0].count + q), t[1..]);
      } else {
        BumpDistinct(t[1..], name, q);
        BumpNames(t[1..], name, q);
        DistinctCons(t[0], Bump(t[1..], name, q));
      }
    }
  }

  lemma {:induction false} DistinctCountOf(t: seq<NameCount>, e: NameCount)
    requires DistinctNames(t) && e in t
    ensures CountOf(t, e.name) == e.count
  {
    DistinctTail(t);
    if t[0] != e {
      assert e in t[1..];
      DistinctCountOf(t[1..], e);
    }
  }

  /** In a list with distinct names, an entry occurs at most once. */
  lemma {:induction false} DistinctOccursOnce(t: seq<NameCount>, e: NameCount)
    requires DistinctNames(t)
    ensures multiset(t)[e] <= 1
  {
    if t != [] {
      DistinctTail(t);
      DistinctOccursOnce(t[1..], e);
      assert t == [t[0]] + t[1..];
      if t[0] == e {
        assert e !in t[1..];
      }
    }
  }

  /** An entry at two positions of a list occurs in it at least twice. */
  lemma TwoPositions(t: seq<NameCount>, i: nat, j: nat)
    requires i < j < |t| && t[i] == t[j]
    ensures multiset(t)[t[i]] >= 2
  {
    assert t == t[..j] + t[j..];
    assert t[i] in t[..j];
    assert t[j..][0] == t[j];
  }

  /** A reordering of a list with distinct names has distinct names. */
  lemma DistinctPermutation(a: seq<NameCount>, b: seq<NameCount>)
    requires multiset(a) == multiset(b) && DistinctNames(b)
    ensures DistinctNames(a)
  {
    forall i, j | 0 <= i < j < |a| ensures a[i].name != a[j].name {
      if a[i].name == a[j].name {
        assert a[i] in multiset(b) && a[j] in multiset(b);
        var p :| 0 <= p < |b| && b[p] == a[i];
        var q :| 0 <= q < |b| && b[q] == a[j];
        assert p == q;
        TwoPositions(a, i, j);
        DistinctOccursOnce(b, a[i]);
        assert false;
      }
    }
  }

  /** The tally holds each name once, exactly the names of the line items, and
      under each name the summed quantity of the items with that name. */
  lemma {:induction false} TallyCorrect(items: seq<LineItem>)
    ensures DistinctNames(Tally(items))
    ensures Names(Tally(items)) == set li | li in items :: li.name
    ensures forall n :: CountOf(Tally(items), n) == QtySold(items, n)
  {
    TallyDistinct(items);
    TallyNames(items);
    forall n ensures CountOf(Tally(items), n) == QtySold(items, n) {
      TallyCount(items, n);
    }
  }

  lemma {:induction false} TallyDistinct(items: seq<LineItem>)
    ensures DistinctNames(Tally(items))
  {
    if items != [] {
      var init := items[..|items| - 1];
      TallyDistinct(init);
      BumpDistinct(Tally(init), items[|items| - 1].name, items[|items| - 1].qty);
    }
  }

  lemma {:induction false} TallyNames(items: seq<LineItem>)
    ensures Names(Tally(items)) == set li | li in items :: li.name
  {
    if items != [] {
      var init := items[..|items| - 1];
      var last := items[|items| - 1];
      TallyNames(init);
      BumpNames(Tally(init), last.name, last.qty);
      assert items == init + [last];
      assert (set li | li in items :: li.name) == (set li | li in init :: li.name) + {last.name};
    }
  }

  lemma {:induction false} TallyCount(items: seq<LineItem>, n: string)
    ensures CountOf(Tally(items), n) == QtySold(items, n)
  {
    if items != [] {
      var init := items[..|items| - 1];
      TallyCount(init, n);
      BumpCount(Tally(init), items[|items| - 1].name, items[|items| - 1].qty, n);
    }
  }


  /** Every entry of the tally carries the summed quantity sold under its name. */
  lemma TallyEntries(items: seq<LineItem>)
    ensures forall e :: e in Tally(items) ==> e.count == QtySold(items, e.name)
    ensures forall li :: li in items ==> exists e :: e in Tally(items) && e.name == li.name
  {
    TallyCorrect(items);
    forall e | e in Tally(items) ensures e.count == QtySold(items, e.name) {
      DistinctCountOf(Tally(items), e);
    }
    forall li | li in items ensures exists e :: e in Tally(items) && e.name == li.name {
      assert li.name in Names(Tally(items));
    }
  }

  lemma TallySnoc(items: seq<LineItem>, li: LineItem)
    ensures Tally(items + [li]) == Bump(Tally(items), li.name, li.qty)
  {
    assert (items + [li])[..|items|] == items;
  }

  lemma AllItemsSnoc(orders: seq<Order>, i: nat)
    requires i < |orders|
    ensures AllItems(orders[..i + 1]) == AllItems(orders[..i]) + orders[i].items
  {
    assert orders[..i + 1][..i] == orders[..i];
  }

  /** The nested counting loop of the analytics handlers. */
  method CountItems(orders: seq<Order>) returns (counts: seq<NameCount>)
    ensures counts == Tally(AllItems(orders))
  {
    counts := [];
    for i := 0 to |orders|
      invariant counts == Tally(AllItems(orders[..i]))
    {
      var items := orders[i].items;
      ghost var before := AllItems(orders[..i]);
      assert before + items[..0] == before;
      for j := 0 to |items|
        invariant counts == Tally(before + items[..j])
      {
        assert before + items[..j + 1] == (before + items[..j]) + [items[j]];
        TallySnoc(before + items[..j], items[j]);
        counts := Bump(counts, items[j].name, items[j].qty);
      }
      assert items[..|items|] == items;
      AllItemsSnoc(orders, i);
    }
    assert orders[..|orders|] == orders;
  }

  /** Sort key for `sorted(..., key=count, reverse=True)`. */
  function NegCount(e: NameCount): real
  {
    -e.count
  }

  /** `top_items`: the tally sorted by count, largest first, ties in dict order. */
  function TopItems(counts: seq<NameCount>): (r: seq<NameCount>)
    ensures multiset(r) == multiset(counts)
    ensures forall i, j :: 0 <= i < j < |r| ==> r[i].count >= r[j].count
    ensures forall c :: KeyFilter(r, NegCount, c) == KeyFilter(counts, NegCount, c)
  {
    var r := SortBy(counts, NegCount);
    SortBySorted(counts, NegCount);
    assert forall i, j :: 0 <= i < j < |r| ==> NegCount(r[i]) <= NegCount(r[j]);
    forall c ensures KeyFilter(r, NegCount, c) == KeyFilter(counts, NegCount, c) {
      SortByStable(counts, NegCount, c);
    }
    r
  }

  /** The analytics reply shared by both variants. */
  datatype Summary = Summary(totalOrders: nat, totalRevenue: real, topItems: seq<NameCount>)

  /** What the analytics handlers promise, whatever the orders' statuses: the
      order count, the revenue over every order, and each name sold once with
      its summed quantity, in a list sorted by count with ties in the order the
      names were first sold. */
  ghost predicate SummaryOf(s: Summary, orders: seq<Order>)
  {
    && s.totalOrders == |orders|
    && s.totalRevenue == SumTotals(orders)
    && DistinctNames(s.topItems)
    && (forall i, j :: 0 <= i < j < |s.topItems| ==> s.topItems[i].count >= s.topItems[j].count)
    && (forall c :: KeyFilter(s.topItems, NegCount, c) == KeyFilter(Tally(AllItems(orders)), NegCount, c))
    && (forall e :: e in s.topItems ==> e.count == QtySold(AllItems(orders), e.name))
    && (forall li :: li in AllItems(orders) ==> exists e :: e in s.topItems && e.name == li.name)
    && (forall e :: e in s.topItems ==> exists li :: li in AllItems(orders) && e.name == li.name)
  }

  /** The body shared by both analytics handlers. */
  method Summarize(orders: seq<Order>) returns (s: Summary)
    ensures SummaryOf(s, orders)
    ensures s.topItems == TopItems(Tally(AllItems(orders)))
  {
    var counts := CountItems(orders);
    var top := TopItems(counts);
    s := Summary(|orders|, SumTotals(orders), top);
    TallyEntries(AllItems(orders));
    TallyCorrect(AllItems(orders));
    DistinctPermutation(top, counts);
    forall e | e in top ensures e.count == QtySold(AllItems(orders), e.name)
      && exists li :: li in AllItems(orders) && e.name == li.name
    {
      assert e in multiset(top);
      assert e in counts;
      assert e.name in Names(counts);
    }
    forall li | li in AllItems(orders) ensures exists e :: e in top && e.name == li.name {
      var e :| e in counts && e.name == li.name;
      assert e in multiset(counts);
      assert e in top;
    }
  }
}
