# Restaurant order engine — a Dafny model

This project models the in-memory order and catalog engine of a small
restaurant backend (a Flask application). The engine exists in two variants,
`oldstyle.py` and `newstyle.py`. Each keeps four process-wide lists: the menu,
the inventory, the reservations and the orders. Request handlers update these
lists in place.

- `collections.dfy` (module `Collections`): generic sequence tools.
  - `Filter` is a list comprehension; `IsSubsequence` and `IsFilterOf` specify it.
  - `SortBy` is a stable insertion sort standing in for Python's `sorted`. It
    has lemmas for order, permutation, stability (`KeyFilter`) and for taking a
    prefix (`sorted(...)[:3]`).
  - `FirstIndex` is the `next(...)` lookup.
- `restaurant.dfy` (module `Restaurant`): the entities and the logic both
  variants share.
  - Entities: menu item, inventory record, reservation, line item, log entry,
    order, status.
  - Lookups by id, `get_order`, the `add_log` step and reservation defaults.
  - Order totals and revenue.
  - The per-name sales tally of the analytics handlers. `CountItems` is their
    nested counting loop, `TopItems` their sort and `Summarize` their shared body.
  - Decoded JSON values, with Python's `float()` and `int()` on them.
  - The item loop of `create_order` (`NormalizeWith` and the `NormalizeItems`
    loop), parameterised by a variant's rule for one entry.
- `oldstyle.dfy` (module `OldStyle`): the first variant.
  - Seed data; order normalisation, which re-reads the catalog; the inventory
    draw-down rule; low-stock alerts; recommendations; `list_orders`; the
    kitchen queue.
  - `class Store`, which owns the four lists and has one method per mutating
    handler.
  - A few scenario methods run on a fresh store.
- `newstyle.dfy` (module `NewStyle`): the second variant.
  - Seed data; normalisation that trusts the caller's price and name and takes
    `int()` of the quantity; `list_orders` with its `for=kitchen` filter.
  - `class Store`.
- `variants.dfy` (module `Variants`): lemmas that show where the two variants
  give different answers for the same input.

Modelling choices:

- **Decoded inputs.** Handler inputs arrive as decoded values. An absent JSON
  body is an empty request: every field is `None`.
- **Item list entries.** An entry of an order's item list is `ById(n)` (a bare
  integer), `Inline(object)` or `Other`. `IdValue` records how Python's
  truthiness and `==` see the value in an id position.
- **Numeric fields.** A numeric field is a `JsonScalar`: a number; a string,
  with what `float()` and `int()` make of it; or a value of any other type.
  The conversions return `Value`, `ValueErr` (Python's ValueError) or
  `TypeErr` (TypeError).
- **Error replies.**
  - `NotFound` is the 404 reply and `InvalidInput` the 400 reply.
  - `InternalError` is an exception the handler does not catch, which the
    framework turns into a 500 reply.
  - The first variant's update handlers catch only ValueError. A `null` price
    there still gives 500. The second variant catches nothing.
  - Handlers are not atomic: a name set before a bad price, or a quantity set
    before a bad threshold, stays set when the handler then fails.
- **Numbers.** Prices, quantities and stock levels are `real`, so the 0.1 tea
  decrement is exact.
- **Clock.** Timestamps are a `now: nat` parameter of each mutating method.
  The kitchen queue is a real sort by creation time.
  `KitchenQueueInListOrder` shows that with a clock that never runs backwards,
  the queue is just the active orders in list order.
- **Status changes.** Any of the six statuses may follow any other. The source
  has no transition guard, and the model adds none.

## Model

| member | source | states |
|---|---|---|
| Collections.SortBySorted | oldstyle.py:141 | the stable sort returns its input in non-decreasing key order |
| Collections.SortByStable | oldstyle.py:141 | for every key value, the elements with that key keep their relative input order |
| Collections.SortByPrefix | oldstyle.py:141-142 | a prefix of the sorted list is drawn from the input, is sorted, holds nothing with a larger key than any element left out, and keeps input order among equal keys |
| Collections.FilterIsFilterOf | oldstyle.py:117-122 | a loop- or comprehension-built filter is a subsequence of its input with exactly the elements that pass, each as often |
| Restaurant.ParseStatus | oldstyle.py:388-394 | a status is accepted exactly when it is one of the six valid strings; the accepted status has that wire name |
| Restaurant.ParseName | newstyle.py:192-195 | each of the six statuses is accepted under its own wire name |
| Restaurant.TruncateTowardZero | newstyle.py:213 | `int()` of a number lies within one of it, on the side of zero |
| Restaurant.FindMenuItem | oldstyle.py:91-92 | none exactly when no item has the id; otherwise the first position holding that id |
| Restaurant.FindInventoryRecord | oldstyle.py:226 | none exactly when no record has the id; otherwise the first position holding that id |
| Restaurant.FindOrder | oldstyle.py:377 | none exactly when no order has the id; otherwise the first position holding that id |
| Restaurant.GetOrder | oldstyle.py:375-380 | success exactly when some order has the id, returning an order of the list with that id; otherwise NotFound |
| Restaurant.OrdersValidAppend | oldstyle.py:334-352 | appending a well-formed order with id `len + 1` keeps every id equal to its position plus one |
| Restaurant.OrdersValidUpdate | oldstyle.py:400-402 | replacing an order by a well-formed one with the same id keeps the store's order invariant |
| Restaurant.SequentialLookup | oldstyle.py:335 | with `len + 1` ids, ids strictly increase in list order and id n is found at position n - 1 |
| Restaurant.AppendLog | oldstyle.py:95-101 | the log grows by exactly the new entry and no other field changes |
| Restaurant.NewReservation | oldstyle.py:252-259 | the given id and time, and each missing field takes its default: "Guest", "", "", 1 |
| Restaurant.NormalizeFails | oldstyle.py:306-332 | for either variant's entry rule, the item loop fails exactly when some entry raises, and then as an uncaught exception |
| Restaurant.NormalizeKept | newstyle.py:211-230 | a successful loop has at most one line per entry, and every line is one that some entry kept |
| Restaurant.NormalizeStep | oldstyle.py:306-332 | one more entry extends a successful loop by that entry's outcome: unchanged, one more line, or failure |
| Restaurant.NormalizeErrExtends | newstyle.py:211-230 | once a prefix of the list fails, the whole list fails |
| Restaurant.KeepStep | oldstyle.py:314-320 | a kept entry adds its line and adds price × qty to the running total |
| Restaurant.CrashStep | newstyle.py:213-220 | an entry that raises makes the whole order fail |
| Restaurant.NormalizeItems | newstyle.py:207-230 | the loop returns the normalisation of the raw list and, on success, the total Σ price × qty of its lines |
| Restaurant.LineTotalSnoc | oldstyle.py:320 | adding a line adds its price times its quantity to the total |
| Restaurant.LineTotalConcat | oldstyle.py:445 | the total of two item lists put together is the sum of their totals |
| Restaurant.RevenueIsLineTotal | oldstyle.py:445 | when each order's total is its items' total, revenue equals the total over every line item ever sold |
| Restaurant.SumTotalsIgnoresStatus | oldstyle.py:445 | changing an order's status, or anything but its total, leaves revenue unchanged; cancelled orders still count |
| Restaurant.BumpCount | oldstyle.py:452 | one `counts[name] += qty` step adds qty under that name and changes no other name's count |
| Restaurant.BumpNames | oldstyle.py:452 | the step adds the name to the dict's keys and removes none |
| Restaurant.BumpDistinct | oldstyle.py:452 | the step keeps every key once |
| Restaurant.TallyDistinct | oldstyle.py:448-452 | the counts dict holds each name once |
| Restaurant.TallyNames | oldstyle.py:448-452 | its keys are exactly the names of the line items |
| Restaurant.TallyCount | oldstyle.py:448-452 | under each name it holds the summed quantity of the lines with that name |
| Restaurant.TallyCorrect | oldstyle.py:448-452 | the counts dict holds each name once, its keys are exactly the items' names, and each holds its name's summed quantity |
| Restaurant.DistinctPermutation | oldstyle.py:454-458 | sorting the tally, whose names are distinct, leaves the names distinct |
| Restaurant.TallyEntries | oldstyle.py:448-455 | every entry carries its name's summed quantity, and every sold name has an entry |
| Restaurant.CountItems | oldstyle.py:448-452 | the nested loop over orders and their items builds exactly that tally |
| Restaurant.TopItems | oldstyle.py:454-458 | a permutation of the tally with counts non-increasing and ties in dict order |
| Restaurant.Summarize | newstyle.py:303-318 | order count equals the number of orders; revenue is the sum of all totals whatever their status; each name sold appears once, with its summed quantity; the list is sorted by count, non-increasing, with tied counts in the order the names were first counted; the reply is `TopItems` of the tally |
| OldStyle.NormalizeEntry | oldstyle.py:307-332 | a kept line is the first catalog item with the id the entry names, with that item's name and price; a bare integer is kept with qty 1 exactly when the menu has it and never raises; an object is dropped exactly when `id or menu_id` does not resolve, raises exactly when it resolves with a qty that is not a number, and otherwise keeps the caller's qty (1 by default); anything else is dropped |
| OldStyle.NormalizeRaises | oldstyle.py:309-320 | creating an order raises exactly when some object entry resolves to a menu item but its qty is not a number |
| OldStyle.NormalizeFromCatalog | oldstyle.py:306-332 | a successful normalisation has no more lines than entries, and every line is the catalog item (name, price, id) of the id that the entry it came from names |
| OldStyle.SeededEntries | oldstyle.py:321-332 | on the seeded menu, ids 2 and 3 give Pizza at 32 and Chicken Biryani at 28, each with qty 1 |
| OldStyle.PizzaAndBiryani | oldstyle.py:306-332 | the items `[2, 3]` normalise to those two lines, with total 60 |
| OldStyle.ConsumeRow | oldstyle.py:110-114 | a "Rice…" row of an order with a Mandi or Biryani dish becomes `max(qty - 1, 0)`, a "Tea…" row of an order with a Karak dish `max(qty - 0.1, 0)`, and every other row stays exactly as it was; only the quantity ever changes |
| OldStyle.ConsumeStock | oldstyle.py:110-114 | the inventory keeps its length and each row is updated by that rule |
| OldStyle.ConsumeStockBounds | oldstyle.py:104-114 | across the inventory, ids, names, units and thresholds stay the same, only Rice/Tea rows change, and a changed row is not negative |
| OldStyle.LowStockItems | oldstyle.py:117-122 | exactly the rows with quantity at most their threshold, in inventory order, each as often as it occurs |
| OldStyle.Recommendations | oldstyle.py:125-142 | empty input gives empty output; at most three results; each a menu item whose id is not in the input |
| OldStyle.CandidatesInMenu | oldstyle.py:137-139 | every candidate is a menu item not named by the input |
| OldStyle.CandidatesMembers | oldstyle.py:134-139 | the pool, in catalog order, is the non-input items of the input's categories when there are any, and otherwise all non-input items |
| OldStyle.RecommendationsTopThree | oldstyle.py:141-142 | the three highest-priced candidates, or all of them when fewer; price non-increasing; no candidate left out costs more than one taken; equal prices in catalog order |
| OldStyle.ListOrders | oldstyle.py:356-372 | a subsequence of the orders holding exactly the orders that pass the status and type filters; an empty parameter is no filter |
| OldStyle.ListOrdersCorrect | oldstyle.py:366-370 | the two successive comprehensions filter by the conjunction of the two filters |
| OldStyle.KitchenQueue | oldstyle.py:410-419 | exactly the orders that are neither COMPLETED nor CANCELLED, ordered by creation time, with ties in list order |
| OldStyle.KitchenQueueInListOrder | oldstyle.py:417-418 | when creation times never decrease along the list, the queue is the active orders in list order |
| OldStyle.UpdateError | oldstyle.py:200-204 | a failed `float()` answers 400 exactly when it raised ValueError; every other failure propagates as a 500 (InternalError) |
| OldStyle.Store.constructor | oldstyle.py:18-78 | the seeded menu and inventory, with no orders and no reservations |
| OldStyle.Store.UpdateMenuItem | oldstyle.py:190-208 | unknown id: NotFound, nothing changes. Otherwise only that item changes, never its id. Fields present are set in the order name, price, category. A bad price answers 400 (ValueError) or 500 (other types), keeps the old price and category, and leaves a new name in place |
| OldStyle.Store.UpdateInventory | oldstyle.py:223-241 | unknown id: NotFound, nothing changes. Otherwise only the quantity and threshold of that row can change. A bad quantity answers 400/500 with nothing changed; a bad threshold answers 400/500 after the new quantity is already stored |
| OldStyle.Store.CreateReservation | oldstyle.py:248-262 | appends a reservation with id `len + 1` and the defaults; earlier reservations unchanged |
| OldStyle.Store.RecalcInventoryForOrder | oldstyle.py:104-114 | the in-place loop leaves the inventory equal to `ConsumeStock` of the old inventory |
| OldStyle.Store.CreateOrder | oldstyle.py:293-353 | if normalisation raises, nothing changes. Otherwise exactly one order is appended: id `len + 1`, request fields or defaults, catalog lines, total Σ price × qty, RECEIVED, one "Order created" log entry, and the inventory drawn down by the order's dishes |
| OldStyle.Store.UpdateOrderStatus | oldstyle.py:383-403 | an invalid status: 400 before any lookup, nothing changes. Unknown id: 404. Otherwise, from any current status, only that order changes: the new status, the update time and exactly one more log entry with that status |
| OldStyle.Store.Analytics | oldstyle.py:442-465 | the full summary over every order (as for `Summarize`, top items equal to `TopItems` of the tally), revenue equal to the total over all line items, and the low-stock rows |
| OldStyle.PlaceSampleOrder | oldstyle.py:293-353 | on a fresh store, ordering `[2, 3]` gives one order, RECEIVED, total 60, one log entry |
| OldStyle.AdvanceOnlyOrder | oldstyle.py:383-403 | a valid status update on a one-order store keeps the total, sets the status and adds one log entry |
| OldStyle.OrderLifecycle | oldstyle.py:383-419 | total 60; after PREPARING then COMPLETED the log has three entries and the kitchen queue is empty; revenue is 60 |
| OldStyle.SameItemsTwice | oldstyle.py:334-352 | the same raw items submitted twice both succeed or both fail; on success the ids are consecutive and the totals equal |
| OldStyle.TwoOrderRevenue | oldstyle.py:442-445 | with two orders of total 60 and 40, analytics reports 2 orders and 100 of revenue |
| NewStyle.TruncateWhole | newstyle.py:213 | `int()` always gives a whole number, and gives a whole number back unchanged |
| NewStyle.NormalizeEntry | newstyle.py:211-230 | an object is dropped exactly when it lacks `price` or `name`, raises exactly when `int(qty)` or `float(price)` raises, and otherwise keeps the caller's id and name with those converted values, so its qty is whole; a bare integer is the catalog item with qty 1, or dropped when absent, and never raises; anything else is dropped |
| NewStyle.NormalizeRaises | newstyle.py:212-220 | creating an order raises exactly when some object entry with `price` and `name` has a qty `int()` rejects or a price `float()` rejects |
| NewStyle.NormalizeWhole | newstyle.py:211-230 | every quantity of a successful normalisation is whole; there are no more lines than entries |
| NewStyle.CallerPriceAccepted | newstyle.py:212-220 | an object naming id 2 at any price and name is taken as sent, with qty 1 |
| NewStyle.ListOrders | newstyle.py:250-270 | a subsequence of the orders holding exactly the orders that pass every given filter (status, order type, kitchen) |
| NewStyle.ListOrdersCorrect | newstyle.py:262-268 | the three successive comprehensions filter by the conjunction of the three filters |
| NewStyle.AnalyticsTruncationIsIdentity | newstyle.py:311 | on a store whose quantities are whole, analytics' `int()` of a stored quantity is that quantity |
| NewStyle.AllItemsWhole | newstyle.py:307-311 | every line item of a store with whole quantities has a whole quantity |
| NewStyle.WholeQuantitiesAppend | newstyle.py:246 | appending an order with whole quantities keeps every stored quantity whole |
| NewStyle.WholeQuantitiesUpdate | newstyle.py:292-294 | a status update, which leaves the items alone, keeps every stored quantity whole |
| NewStyle.Store.constructor | newstyle.py:11-71 | the seeded menu and the four-row inventory, with no orders and no reservations |
| NewStyle.Store.UpdateMenuItem | newstyle.py:124-138 | unknown id: NotFound, nothing changes. Otherwise only that item changes. Fields present are set in the order name, price, category. Any price `float()` rejects raises (500), keeping the old price and category and leaving a new name in place |
| NewStyle.Store.UpdateInventoryItem | newstyle.py:149-161 | unknown id: NotFound, nothing changes. Otherwise only quantity and threshold change, when present. A bad value raises (500); a quantity set before a bad threshold stays |
| NewStyle.Store.CreateReservation | newstyle.py:167-181 | appends a reservation with id `len + 1` and the defaults; earlier reservations unchanged |
| NewStyle.Store.CreateOrder | newstyle.py:197-247 | if normalisation raises, nothing changes. Otherwise exactly one order is appended: id `len + 1`, request fields or defaults, normalised lines, total Σ price × qty, RECEIVED, a log of one RECEIVED entry; quantities stay whole |
| NewStyle.Store.UpdateOrderStatus | newstyle.py:281-295 | an invalid status: 400 before any lookup, nothing changes. Unknown id: 404. Otherwise, from any current status, only that order changes: the new status, the update time and one more log entry recording it |
| NewStyle.Store.Analytics | newstyle.py:301-324 | the full summary over every order (as for `Summarize`, top items equal to `TopItems` of the tally), with revenue equal to the total over all line items |
| Variants.InlinePriceSource | newstyle.py:212-220 | an object entry "Pizza" (id 2) at price 1 costs 32 in the first variant and 1 in the second |
| Variants.InlineIdOnly | oldstyle.py:307-320 | an object with only `menu_id: 3` becomes Chicken Biryani at 28 in the first variant and is dropped by the second |
| Variants.OldIdOnlyEntry | oldstyle.py:309-319 | the first variant turns `{menu_id: 3}` into the seeded Chicken Biryani at 28 with qty 1 |
| Variants.FractionalQuantity | newstyle.py:213 | qty 2.5 stays 2.5 in the first variant and becomes 2 in the second |
| Variants.KitchenViews | newstyle.py:267-268 | every order the second variant's kitchen filter keeps is in the first variant's kitchen queue, but a READY order is only in the queue |

## Left out

- Flask routing, `jsonify`, `request.get_json` and CORS are not modelled. Handlers take decoded Dafny values.
  - A JSON boolean in a numeric position is taken to arrive as the number it equals.
  - Names are strings.
  - A JSON `null` in a string field (name, date, time, customer name, order type) is not represented. The source stores `None` there, since `data.get(key, default)` falls back only for a missing key; the model reads `None` as absent and gives the default.
  - Reservation `size` is an integer.
  - The JSON decoding itself is not modelled.
- The `get_menu`, `get_inventory`, `list_reservations`, `root`, `health` and `login` handlers are not modelled. They return lists unchanged or compare plaintext credentials; they state nothing about the order engine.
- Real timestamps (`now_iso`, `now_str`) are not modelled.
  - The clock is a `nat` parameter.
  - The kitchen queue sorts by that number rather than by ISO strings. The two agree while the strings have one fixed format.
  - `datetime.utcnow().isoformat()` drops the `.ffffff` part when the microsecond is 0. An order stamped `…T12:00:00Z` then sorts after a later one in the same second stamped `…T12:00:00.400000Z`, because `'.' < 'Z'`. The model's `nat` key never misorders these.
- Floating point is not modelled. Prices and quantities are exact reals, so IEEE rounding (of the 0.1 tea decrement, say), `nan` and `inf` are not captured.
- Concurrency is not modelled: the `len + 1` id race and the lost update on shared rows. Each handler runs to completion.
- Image URLs of menu items are not modelled; no handler reads or writes them.
- The frontend is not part of this model.
- NewStyle.Store.Analytics: the handler applies `int()` to every stored quantity. The model counts the stored quantity itself, and `NewStyle.AnalyticsTruncationIsIdentity` shows that this is the same on every store the handlers can build.
