/**
 * Demand against stock: the quantity each item needs for the Active orders,
 * the stock-analysis table (one row per item, stock minus required), the
 * shopping list of SHORT rows, and the dashboard's per-item stock alerts.
 */
module Demand {
  import opened Records

  /** The ids of the Active orders (the list that `isin` tests line order ids against). */
  function ActiveIds(orders: seq<Order>): (r: set<OrderId>)
    ensures forall o :: o in orders && o.status == Active ==> o.id in r
    ensures forall id :: id in r ==> exists o :: o in orders && o.status == Active && o.id == id
    ensures r <= OrderIds(orders)
  {
    set o | o in orders && o.status == Active :: o.id
  }

  /** Sum of the quantities of the lines of item `name` whose order id is in `ids`. */
  function QuantityIn(lines: seq<Line>, ids: set<OrderId>, name: ItemName): real
  {
    if lines == [] then 0.0
    else
      var l := Last(lines);
      QuantityIn(Init(lines), ids, name) + (if l.itemName == name && l.orderId in ids then l.quantity else 0.0)
  }

  /** The quantity of item `name` that the Active orders ask for. */
  function ActiveQuantity(orders: seq<Order>, lines: seq<Line>, name: ItemName): real
  {
    QuantityIn(lines, ActiveIds(orders), name)
  }

  /** A lookup in the grouped quantities in which a missing item reads as 0. */
  function Lookup(m: map<ItemName, real>, name: ItemName): (r: real)
    ensures name in m ==> r == m[name]
    ensures name !in m ==> r == 0.0
  {
    if name in m then m[name] else 0.0
  }

  /**
   * Group the lines whose order id is in `ids` by item name and sum their
   * quantities: an item is a key exactly when such a line names it.
   */
  function GroupQuantities(lines: seq<Line>, ids: set<OrderId>): (r: map<ItemName, real>)
    ensures forall name :: name in r <==> exists l :: l in lines && l.itemName == name && l.orderId in ids
    ensures forall name :: Lookup(r, name) == QuantityIn(lines, ids, name)
  {
    if lines == [] then map[]
    else
      var m := GroupQuantities(Init(lines), ids);
      var l := Last(lines);
      assert lines == Init(lines) + [l];
      if l.orderId in ids then m[l.itemName := Lookup(m, l.itemName) + l.quantity] else m
  }

  /**
   * The required-by-item grouping: quantities of the lines of Active orders,
   * summed per item. Looking an item up gives its Active demand, 0 when it
   * has none, and an item is a key only if some Active order contains it.
   */
  function RequiredByItem(orders: seq<Order>, lines: seq<Line>): (r: map<ItemName, real>)
    ensures forall name :: name in r <==> exists l :: l in lines && l.itemName == name && l.orderId in ActiveIds(orders)
    ensures forall name :: Lookup(r, name) == ActiveQuantity(orders, lines, name)
  {
    GroupQuantities(lines, ActiveIds(orders))
  }

  lemma QuantityInSnoc(lines: seq<Line>, l: Line, ids: set<OrderId>, name: ItemName)
    ensures l.itemName == name && l.orderId in ids ==> QuantityIn(lines + [l], ids, name) == QuantityIn(lines, ids, name) + l.quantity
    ensures !(l.itemName == name && l.orderId in ids) ==> QuantityIn(lines + [l], ids, name) == QuantityIn(lines, ids, name)
  {
    InitOfSnoc(lines, l);
  }

  /** Lines whose order is not Active never add to an item's demand. */
  lemma {:induction false} InactiveLinesContributeNothing(lines: seq<Line>, ids: set<OrderId>, name: ItemName)
    requires forall l :: l in lines && l.itemName == name ==> l.orderId !in ids
    ensures QuantityIn(lines, ids, name) == 0.0
    decreases |lines|
  {
    if lines != [] {
      assert lines == Init(lines) + [Last(lines)];
      InactiveLinesContributeNothing(Init(lines), ids, name);
    }
  }

  /**
   * An item none of whose lines belongs to an Active order is absent from the
   * grouping and reads as 0 demand (so Completed orders never contribute).
   */
  lemma NoActiveLinesMeansNoDemand(orders: seq<Order>, lines: seq<Line>, name: ItemName)
    requires forall l :: l in lines && l.itemName == name ==> l.orderId !in ActiveIds(orders)
    ensures name !in RequiredByItem(orders, lines)
    ensures ActiveQuantity(orders, lines, name) == 0.0
  {
    InactiveLinesContributeNothing(lines, ActiveIds(orders), name);
  }

  /** Taking one order id out of `ids` takes exactly that order's quantity of the item out. */
  lemma {:induction false} QuantityInRemove(lines: seq<Line>, ids: set<OrderId>, id: OrderId, name: ItemName)
    requires id in ids
    ensures QuantityIn(lines, ids, name) == QuantityIn(lines, ids - {id}, name) + QuantityIn(lines, {id}, name)
    decreases |lines|
  {
    if lines != [] {
      var rest, l := Init(lines), Last(lines);
      assert lines == rest + [l];
      QuantityInRemove(rest, ids, id, name);
      QuantityInSnoc(rest, l, ids, name);
      QuantityInSnoc(rest, l, ids - {id}, name);
      QuantityInSnoc(rest, l, {id}, name);
    }
  }

  /** Marking order `k` Completed: with distinct ids, only its own id leaves the Active set. */
  lemma ActiveIdsAfterCompleting(orders: seq<Order>, k: nat)
    requires DistinctIds(orders) && k < |orders| && orders[k].status == Active
    ensures ActiveIds(orders[k := orders[k].(status := Completed)]) == ActiveIds(orders) - {orders[k].id}
  {
    var updated := orders[k := orders[k].(status := Completed)];
    forall x | x in ActiveIds(updated) ensures x in ActiveIds(orders) - {orders[k].id} {
      var p :| p in updated && p.status == Active && p.id == x;
      var j :| 0 <= j < |updated| && updated[j] == p;
      assert j != k && orders[j] == p;
      assert orders[j].id != orders[k].id;
    }
    forall x | x in ActiveIds(orders) - {orders[k].id} ensures x in ActiveIds(updated) {
      var p :| p in orders && p.status == Active && p.id == x;
      var j :| 0 <= j < |orders| && orders[j] == p;
      assert j != k && updated[j] == p;
    }
  }

  /**
   * Changing an Active order to Completed removes exactly that order's lines
   * from every item's required quantity (order ids being distinct).
   */
  lemma CompletingOrderRemovesItsDemand(orders: seq<Order>, k: nat, lines: seq<Line>, name: ItemName)
    requires DistinctIds(orders) && k < |orders| && orders[k].status == Active
    ensures ActiveQuantity(orders[k := orders[k].(status := Completed)], lines, name)
         == ActiveQuantity(orders, lines, name) - QuantityIn(lines, {orders[k].id}, name)
  {
    ActiveIdsAfterCompleting(orders, k);
    assert orders[k] in orders;
    QuantityInRemove(lines, ActiveIds(orders), orders[k].id, name);
  }

  // ---- Stock analysis table and shopping list ----

  datatype RowStatus = Ok | Short

  /** One row of the stock-analysis table (the source renders these numbers as text). */
  datatype AnalysisRow = AnalysisRow(item: ItemName, stock: real, required: real, difference: real, status: RowStatus)

  /**
   * The stock-analysis loop: a left join from Items, one row per item in
   * Items order whether or not anything orders it, with difference = stock -
   * required and status SHORT exactly when the difference is negative. The
   * shopping list it feeds is empty exactly when every item covers its demand.
   */
  method StockAnalysis(items: seq<Item>, orders: seq<Order>, lines: seq<Line>) returns (rows: seq<AnalysisRow>)
    ensures |rows| == |items|
    ensures forall i :: 0 <= i < |items| ==>
      && rows[i].item == items[i].name
      && rows[i].stock == items[i].stock
      && rows[i].required == ActiveQuantity(orders, lines, items[i].name)
      && rows[i].difference == items[i].stock - rows[i].required
      && (rows[i].status == Short <==> rows[i].difference < 0.0)
    ensures ShoppingList(rows) == [] <==>
      forall i :: 0 <= i < |items| ==> items[i].stock >= ActiveQuantity(orders, lines, items[i].name)
  {
    var required := RequiredByItem(orders, lines);
    rows := [];
    for i := 0 to |items|
      invariant |rows| == i
      invariant forall j :: 0 <= j < i ==>
        && rows[j].item == items[j].name
        && rows[j].stock == items[j].stock
        && rows[j].required == ActiveQuantity(orders, lines, items[j].name)
        && rows[j].difference == items[j].stock - rows[j].required
        && (rows[j].status == Short <==> rows[j].difference < 0.0)
    {
      var item := items[i];
      var need := Lookup(required, item.name);
      assert need == ActiveQuantity(orders, lines, item.name);
      var difference := item.stock - need;
      var status := if difference >= 0.0 then Ok else Short;
      rows := rows + [AnalysisRow(item.name, item.stock, need, difference, status)];
    }
    ShoppingListEmpty(rows);
  }

  /** The shopping list: the SHORT rows of the table, in table order. */
  function ShoppingList(rows: seq<AnalysisRow>): (r: seq<AnalysisRow>)
    ensures forall row :: row in r <==> row in rows && row.status == Short
    ensures |r| <= |rows|
  {
    if rows == [] then []
    else
      var row := Last(rows);
      assert rows == Init(rows) + [row];
      ShoppingList(Init(rows)) + (if row.status == Short then [row] else [])
  }

  /** The shopping list keeps table order: it distributes over concatenation. */
  lemma {:induction false} ShoppingListAppend(a: seq<AnalysisRow>, b: seq<AnalysisRow>)
    ensures ShoppingList(a + b) == ShoppingList(a) + ShoppingList(b)
    decreases |b|
  {
    if b == [] {
      assert a + b == a;
    } else {
      assert Init(a + b) == a + Init(b);
      assert Last(a + b) == Last(b);
      ShoppingListAppend(a, Init(b));
    }
  }

  /** The shopping list is empty exactly when no row is SHORT. */
  lemma ShoppingListEmpty(rows: seq<AnalysisRow>)
    ensures ShoppingList(rows) == [] <==> forall i :: 0 <= i < |rows| ==> rows[i].status == Ok
  {
    var r := ShoppingList(rows);
    if r != [] {
      assert r[0] in r;
      var i :| 0 <= i < |rows| && rows[i] == r[0];
      assert rows[i].status != Ok;
    }
    if exists i :: 0 <= i < |rows| && rows[i].status != Ok {
      var i :| 0 <= i < |rows| && rows[i].status != Ok;
      assert rows[i] in r;
    }
  }

  // ---- Stock alerts ----

  /** An item less than this many kilograms above its demand gets a low-surplus warning. */
  const LowSurplusMargin: real := 2.0

  datatype Alert =
    | Shortage(item: ItemName, stock: real, required: real, shortBy: real)
    | LowSurplus(item: ItemName, stock: real, required: real, surplus: real)

  /**
   * The alert for one item given its required quantity: a shortage when stock
   * falls below demand, a low-surplus warning when it exceeds demand by less
   * than the margin, and nothing otherwise; the three cases are disjoint and
   * cover every difference.
   */
  function AlertFor(item: Item, required: real): (r: Option<Alert>)
    ensures (r.Some? && r.value.Shortage?) <==> item.stock - required < 0.0
    ensures (r.Some? && r.value.LowSurplus?) <==> 0.0 <= item.stock - required < LowSurplusMargin
    ensures r.None? <==> item.stock - required >= LowSurplusMargin
    ensures r.Some? ==> r.value.item == item.name && r.value.stock == item.stock && r.value.required == required
    ensures r.Some? && r.value.Shortage? ==> r.value.shortBy == required - item.stock > 0.0
    ensures r.Some? && r.value.LowSurplus? ==> r.value.surplus == item.stock - required
  {
    var difference := item.stock - required;
    if difference < 0.0 then Some(Shortage(item.name, item.stock, required, -difference))
    else if difference < LowSurplusMargin then Some(LowSurplus(item.name, item.stock, required, difference))
    else None
  }

  function AlertOf(item: Item, orders: seq<Order>, lines: seq<Line>): Option<Alert>
  {
    AlertFor(item, ActiveQuantity(orders, lines, item.name))
  }

  /** The alerts for `items`, in Items order: exactly one per item that has one. */
  function AlertsOf(items: seq<Item>, orders: seq<Order>, lines: seq<Line>): (r: seq<Alert>)
    ensures |r| <= |items|
    ensures forall a :: a in r ==> exists i :: 0 <= i < |items| && AlertOf(items[i], orders, lines) == Some(a)
    ensures forall i :: 0 <= i < |items| && AlertOf(items[i], orders, lines).Some? ==>
      AlertOf(items[i], orders, lines).value in r
  {
    if items == [] then []
    else
      var rest := Init(items);
      var more := match AlertOf(Last(items), orders, lines) case None => [] case Some(a) => [a];
      var r := AlertsOf(rest, orders, lines) + more;
      assert forall i :: 0 <= i < |rest| ==> items[i] == rest[i];
      r
  }

  lemma AlertsOfSnoc(items: seq<Item>, item: Item, orders: seq<Order>, lines: seq<Line>)
    ensures AlertOf(item, orders, lines).None? ==> AlertsOf(items + [item], orders, lines) == AlertsOf(items, orders, lines)
    ensures AlertOf(item, orders, lines).Some? ==>
      AlertsOf(items + [item], orders, lines) == AlertsOf(items, orders, lines) + [AlertOf(item, orders, lines).value]
  {
    InitOfSnoc(items, item);
    assert AlertsOf(items, orders, lines) + [] == AlertsOf(items, orders, lines);
  }

  /** The alerts keep Items order: the alerts of two concatenated item lists are the two alert lists concatenated. */
  lemma {:induction false} AlertsOfAppend(a: seq<Item>, b: seq<Item>, orders: seq<Order>, lines: seq<Line>)
    ensures AlertsOf(a + b, orders, lines) == AlertsOf(a, orders, lines) + AlertsOf(b, orders, lines)
    decreases |b|
  {
    if b == [] {
      assert a + b == a;
      assert AlertsOf(a, orders, lines) + [] == AlertsOf(a, orders, lines);
    } else {
      var rest, item := Init(b), Last(b);
      assert b == rest + [item];
      assert a + b == (a + rest) + [item];
      AlertsOfAppend(a, rest, orders, lines);
      AlertsOfAppendStep(AlertsOf(a, orders, lines), a + rest, rest, item, orders, lines);
    }
  }

  /** One step of AlertsOfAppend: when `ab`'s alerts are `front` followed by `b`'s, one more item keeps that so. */
  lemma AlertsOfAppendStep(front: seq<Alert>, ab: seq<Item>, b: seq<Item>, item: Item, orders: seq<Order>, lines: seq<Line>)
    requires AlertsOf(ab, orders, lines) == front + AlertsOf(b, orders, lines)
    ensures AlertsOf(ab + [item], orders, lines) == front + AlertsOf(b + [item], orders, lines)
  {
    AlertsOfSnoc(ab, item, orders, lines);
    AlertsOfSnoc(b, item, orders, lines);
    var back := AlertsOf(b, orders, lines);
    match AlertOf(item, orders, lines)
    case None =>
    case Some(x) =>
      assert (front + back) + [x] == front + (back + [x]);
  }

  /**
   * The dashboard's stock-alert loop: for each item, in Items order, a
   * shortage or low-surplus alert as AlertFor classifies it.
   */
  method StockAlerts(items: seq<Item>, orders: seq<Order>, lines: seq<Line>) returns (alerts: seq<Alert>)
    ensures alerts == AlertsOf(items, orders, lines)
  {
    var required := RequiredByItem(orders, lines);
    alerts := [];
    for i := 0 to |items|
      invariant alerts == AlertsOf(items[..i], orders, lines)
    {
      var item := items[i];
      assert items[..i + 1] == items[..i] + [item];
      AlertsOfSnoc(items[..i], item, orders, lines);
      var need := Lookup(required, item.name);
      assert AlertOf(item, orders, lines) == AlertFor(item, need);
      var difference := item.stock - need;
      if difference < 0.0 {
        alerts := alerts + [Shortage(item.name, item.stock, need, -difference)];
      } else if difference < LowSurplusMargin {
        alerts := alerts + [LowSurplus(item.name, item.stock, need, difference)];
      }
    }
    assert items[..|items|] == items;
  }
}
