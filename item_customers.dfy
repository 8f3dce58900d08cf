/**
 * The item-wise customer page: which orders contain an item, and the
 * per-customer detail rows built from them. The detail loop finds each
 * customer's order again by customer name and takes the FIRST order with
 * that name; `CustomerDetails` keeps that behaviour, and `CorrectedDetails`
 * is the lookup by the order itself.
 */
module ItemCustomers {
  import opened Records
  import Demand
  import ItemRanking

  /** The distinct ids of the orders that have a line of item `name`. */
  function ItemOrderIds(lines: seq<Line>, name: ItemName): set<OrderId>
  {
    set l | l in lines && l.itemName == name :: l.orderId
  }

  /**
   * The orders containing item `name`, in Orders order: an order is listed
   * exactly when some line of it names the item.
   */
  function ItemCustomers(orders: seq<Order>, lines: seq<Line>, name: ItemName): (r: seq<Order>)
    ensures forall o :: o in r <==> o in orders && exists l :: l in lines && l.itemName == name && l.orderId == o.id
    ensures |r| <= |orders|
  {
    if orders == [] then []
    else
      var o := Last(orders);
      assert orders == Init(orders) + [o];
      ItemCustomers(Init(orders), lines, name) + (if o.id in ItemOrderIds(lines, name) then [o] else [])
  }

  lemma ItemCustomersSnoc(orders: seq<Order>, o: Order, lines: seq<Line>, name: ItemName)
    ensures o.id in ItemOrderIds(lines, name) ==>
      ItemCustomers(orders + [o], lines, name) == ItemCustomers(orders, lines, name) + [o]
    ensures o.id !in ItemOrderIds(lines, name) ==>
      ItemCustomers(orders + [o], lines, name) == ItemCustomers(orders, lines, name)
  {
    InitOfSnoc(orders, o);
    assert ItemCustomers(orders, lines, name) + [] == ItemCustomers(orders, lines, name);
  }

  /** The customers keep Orders order: the customers of two concatenated order lists are the two lists concatenated. */
  lemma {:induction false} ItemCustomersAppend(a: seq<Order>, b: seq<Order>, lines: seq<Line>, name: ItemName)
    ensures ItemCustomers(a + b, lines, name) == ItemCustomers(a, lines, name) + ItemCustomers(b, lines, name)
    decreases |b|
  {
    if b == [] {
      assert a + b == a;
      assert ItemCustomers(a, lines, name) + [] == ItemCustomers(a, lines, name);
    } else {
      var rest, o := Init(b), Last(b);
      assert b == rest + [o];
      assert a + b == (a + rest) + [o];
      ItemCustomersAppend(a, rest, lines, name);
      ItemCustomersAppendStep(ItemCustomers(a, lines, name), a + rest, rest, o, lines, name);
    }
  }

  /** One step of ItemCustomersAppend: when `ab`'s customers are `front` followed by `b`'s, one more order keeps that so. */
  lemma ItemCustomersAppendStep(front: seq<Order>, ab: seq<Order>, b: seq<Order>, o: Order, lines: seq<Line>, name: ItemName)
    requires ItemCustomers(ab, lines, name) == front + ItemCustomers(b, lines, name)
    ensures ItemCustomers(ab + [o], lines, name) == front + ItemCustomers(b + [o], lines, name)
  {
    ItemCustomersSnoc(ab, o, lines, name);
    ItemCustomersSnoc(b, o, lines, name);
    var back := ItemCustomers(b, lines, name);
    if o.id in ItemOrderIds(lines, name) {
      assert (front + back) + [o] == front + (back + [o]);
    }
  }

  /**
   * An item is in at most as many distinct orders as it has lines, so the
   * statistics' "Total Orders" never undercounts the orders containing it;
   * an item without statistics is in no order.
   */
  lemma OrdersAtMostLines(lines: seq<Line>, name: ItemName)
    ensures |ItemOrderIds(lines, name)| <= ItemRanking.LineCount(lines, name)
    ensures ItemRanking.StatsOf(lines, name).Some? ==>
      |ItemOrderIds(lines, name)| <= ItemRanking.StatsOf(lines, name).value.lineCount
    ensures ItemRanking.StatsOf(lines, name).None? ==> ItemOrderIds(lines, name) == {}
  {
    OrderIdsAtMostLines(lines, name);
  }

  lemma {:induction false} OrderIdsAtMostLines(lines: seq<Line>, name: ItemName)
    ensures |ItemOrderIds(lines, name)| <= ItemRanking.LineCount(lines, name)
    decreases |lines|
  {
    if lines != [] {
      var rest, l := Init(lines), Last(lines);
      assert lines == rest + [l];
      OrderIdsAtMostLines(rest, name);
      if l.itemName == name {
        assert ItemOrderIds(lines, name) == ItemOrderIds(rest, name) + {l.orderId};
      } else {
        assert ItemOrderIds(lines, name) == ItemOrderIds(rest, name);
      }
    }
  }

  /** The first order placed under customer name `customer`, if any. */
  function FirstOrderOf(orders: seq<Order>, customer: string): (r: Option<Order>)
    ensures r.None? <==> forall o :: o in orders ==> o.customer != customer
    ensures r.Some? ==> exists i :: (0 <= i < |orders| && orders[i] == r.value && r.value.customer == customer
      && forall j :: 0 <= j < i ==> orders[j].customer != customer)
  {
    if orders == [] then None
    else if orders[0].customer == customer then Some(orders[0])
    else
      var r := FirstOrderOf(orders[1..], customer);
      assert orders == [orders[0]] + orders[1..];
      assert r.Some? ==> exists i :: (0 <= i < |orders| && orders[i] == r.value && r.value.customer == customer
          && forall j :: 0 <= j < i ==> orders[j].customer != customer) by {
        if r.Some? {
          var i :| 0 <= i < |orders[1..]| && orders[1..][i] == r.value && r.value.customer == customer
            && forall j :: 0 <= j < i ==> orders[1..][j].customer != customer;
          assert orders[i + 1] == r.value;
          forall j | 0 <= j < i + 1 ensures orders[j].customer != customer {
            if j > 0 { assert orders[j] == orders[1..][j - 1]; }
          }
        }
      }
      r
  }

  /** One row of the customer table. */
  datatype CustomerDetail = CustomerDetail(customer: string, quantity: real, delivery: Day, status: Status, payment: Payment)

  /**
   * The detail row for customer order `c` as the page builds it: the quantity
   * is that of the item in the first order placed under c's customer name,
   * while delivery, status and payment are c's own.
   */
  function DetailAsWritten(orders: seq<Order>, lines: seq<Line>, name: ItemName, c: Order): (r: CustomerDetail)
    requires c in orders
    ensures FirstOrderOf(orders, c.customer).Some?
    ensures r.customer == c.customer && r.delivery == c.delivery && r.status == c.status && r.payment == c.payment
    ensures r.quantity == Demand.QuantityIn(lines, {FirstOrderOf(orders, c.customer).value.id}, name)
  {
    var first := FirstOrderOf(orders, c.customer);
    CustomerDetail(c.customer, Demand.QuantityIn(lines, {first.value.id}, name), c.delivery, c.status, c.payment)
  }

  /**
   * The customer-detail loop: one row per order containing item `name`, in
   * Orders order, each row as DetailAsWritten builds it.
   */
  method CustomerDetails(orders: seq<Order>, lines: seq<Line>, name: ItemName) returns (details: seq<CustomerDetail>)
    ensures |details| == |ItemCustomers(orders, lines, name)|
    ensures forall i :: 0 <= i < |details| ==>
      ItemCustomers(orders, lines, name)[i] in orders &&
      details[i] == DetailAsWritten(orders, lines, name, ItemCustomers(orders, lines, name)[i])
  {
    var customers := ItemCustomers(orders, lines, name);
    details := [];
    for i := 0 to |customers|
      invariant |details| == i
      invariant forall j :: 0 <= j < i ==> customers[j] in orders && details[j] == DetailAsWritten(orders, lines, name, customers[j])
    {
      var customer := customers[i];
      assert customer in customers;
      var first := FirstOrderOf(orders, customer.customer);
      var quantity := Demand.QuantityIn(lines, {first.value.id}, name);
      details := details + [CustomerDetail(customer.customer, quantity, customer.delivery, customer.status, customer.payment)];
    }
  }

  // ---- The lookup by the order itself ----

  function CorrectedDetail(lines: seq<Line>, name: ItemName, c: Order): CustomerDetail
  {
    CustomerDetail(c.customer, Demand.QuantityIn(lines, {c.id}, name), c.delivery, c.status, c.payment)
  }

  /** The detail rows with each quantity taken from the row's own order. */
  function CorrectedDetails(lines: seq<Line>, name: ItemName, customers: seq<Order>): (r: seq<CustomerDetail>)
    ensures |r| == |customers|
    ensures forall i :: 0 <= i < |r| ==> r[i] == CorrectedDetail(lines, name, customers[i])
  {
    if customers == [] then []
    else CorrectedDetails(lines, name, Init(customers)) + [CorrectedDetail(lines, name, Last(customers))]
  }

  function SumDetailQuantities(details: seq<CustomerDetail>): real
  {
    if details == [] then 0.0 else SumDetailQuantities(Init(details)) + Last(details).quantity
  }

  lemma CorrectedDetailsSnoc(lines: seq<Line>, name: ItemName, customers: seq<Order>, c: Order)
    ensures SumDetailQuantities(CorrectedDetails(lines, name, customers + [c]))
         == SumDetailQuantities(CorrectedDetails(lines, name, customers)) + Demand.QuantityIn(lines, {c.id}, name)
  {
    InitOfSnoc(customers, c);
    InitOfSnoc(CorrectedDetails(lines, name, customers), CorrectedDetail(lines, name, c));
  }

  lemma QuantityInAddId(lines: seq<Line>, ids: set<OrderId>, id: OrderId, name: ItemName)
    requires id !in ids
    ensures Demand.QuantityIn(lines, ids + {id}, name) == Demand.QuantityIn(lines, ids, name) + Demand.QuantityIn(lines, {id}, name)
  {
    Demand.QuantityInRemove(lines, ids + {id}, id, name);
    assert (ids + {id}) - {id} == ids;
  }

  lemma {:induction false} CorrectedDetailsSumOverOrders(orders: seq<Order>, lines: seq<Line>, name: ItemName)
    requires DistinctIds(orders)
    ensures SumDetailQuantities(CorrectedDetails(lines, name, ItemCustomers(orders, lines, name)))
         == Demand.QuantityIn(lines, OrderIds(orders), name)
    decreases |orders|
  {
    if orders == [] {
      assert OrderIds(orders) == {};
      Demand.InactiveLinesContributeNothing(lines, {}, name);
    } else {
      var rest, o := Init(orders), Last(orders);
      assert orders == rest + [o];
      LastIdIsNew(orders);
      CorrectedDetailsSumOverOrders(rest, lines, name);
      QuantityInAddId(lines, OrderIds(rest), o.id, name);
      ItemCustomersSnoc(rest, o, lines, name);
      var cs := ItemCustomers(rest, lines, name);
      if o.id in ItemOrderIds(lines, name) {
        assert ItemCustomers(orders, lines, name) == cs + [o];
        CorrectedDetailsSnoc(lines, name, cs, o);
      } else {
        assert ItemCustomers(orders, lines, name) == cs;
        OrderWithoutTheItem(lines, o.id, name);
      }
    }
  }

  lemma OrderWithoutTheItem(lines: seq<Line>, id: OrderId, name: ItemName)
    requires id !in ItemOrderIds(lines, name)
    ensures Demand.QuantityIn(lines, {id}, name) == 0.0
  {
    Demand.InactiveLinesContributeNothing(lines, {id}, name);
  }

  lemma {:induction false} QuantityInCoversItem(lines: seq<Line>, ids: set<OrderId>, name: ItemName)
    requires forall l :: l in lines ==> l.orderId in ids
    ensures Demand.QuantityIn(lines, ids, name) == ItemRanking.QuantityOfItem(lines, name)
    decreases |lines|
  {
    if lines != [] {
      assert lines == Init(lines) + [Last(lines)];
      QuantityInCoversItem(Init(lines), ids, name);
    }
  }

  /**
   * With distinct order ids and no orphan lines, the corrected rows add up to
   * the item's whole ordered quantity: every line of the item is counted
   * once, in the row of its own order.
   */
  lemma CorrectedDetailsAddUp(orders: seq<Order>, lines: seq<Line>, name: ItemName)
    requires DistinctIds(orders) && NoOrphans(orders, lines)
    ensures SumDetailQuantities(CorrectedDetails(lines, name, ItemCustomers(orders, lines, name)))
         == ItemRanking.QuantityOfItem(lines, name)
  {
    CorrectedDetailsSumOverOrders(orders, lines, name);
    QuantityInCoversItem(lines, OrderIds(orders), name);
  }

  /**
   * Two orders under one customer name: the row of the second order reports
   * the quantity of the FIRST order (none), although the second order holds
   * 1 kg of the item, so the rows do not add up to the item's quantity.
   */
  lemma DetailAsWrittenTakesFirstOrderOfTheName()
    ensures var orders := [Order(1, "Bhonde", 10, Completed, Paid), Order(2, "Bhonde", 12, Active, Pending)];
      var lines := [Line(2, "Chakli", 1.0, 400.0, 400.0)];
      && ItemCustomers(orders, lines, "Chakli") == [orders[1]]
      && DetailAsWritten(orders, lines, "Chakli", orders[1]).quantity == 0.0
      && CorrectedDetail(lines, "Chakli", orders[1]).quantity == 1.0
      && ItemRanking.QuantityOfItem(lines, "Chakli") == 1.0
  {
    var orders := [Order(1, "Bhonde", 10, Completed, Paid), Order(2, "Bhonde", 12, Active, Pending)];
    var lines := [Line(2, "Chakli", 1.0, 400.0, 400.0)];
    assert ItemOrderIds(lines, "Chakli") == {2} by {
      assert lines[0] in lines;
    }
    assert [orders[0]] + [orders[1]] == orders;
    assert Init(orders) == [orders[0]];
    assert Init([orders[0]]) == [];
    assert FirstOrderOf(orders, "Bhonde") == Some(orders[0]);
    assert Init(lines) == [];
  }
}
