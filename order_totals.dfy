/**
 * Order totals and the dashboard's amount tallies: the total of an order is
 * the sum of the stored Amount of its lines, and the dashboard walks the
 * Orders relation once, adding each order's total to the overall tally and to
 * the tally of its status (and, for an unpaid Active order, to the pending one).
 */
module OrderTotals {
  import opened Records

  /** Sum of the stored `amount` of `ls`. */
  function SumAmounts(ls: seq<Line>): real
  {
    if ls == [] then 0.0 else SumAmounts(Init(ls)) + Last(ls).amount
  }

  /** Sum of `quantity * rate` over `ls`, the amount a line would have if it were recomputed. */
  function SumQuantityTimesRate(ls: seq<Line>): real
  {
    if ls == [] then 0.0 else SumQuantityTimesRate(Init(ls)) + Last(ls).quantity * Last(ls).rate
  }

  /** The lines of order `id`, in OrderLines order. */
  function LinesOfOrder(lines: seq<Line>, id: OrderId): (r: seq<Line>)
    ensures forall l :: l in r <==> l in lines && l.orderId == id
    ensures |r| <= |lines|
  {
    if lines == [] then []
    else
      assert lines == Init(lines) + [Last(lines)];
      LinesOfOrder(Init(lines), id) + (if Last(lines).orderId == id then [Last(lines)] else [])
  }

  /** Sum of the stored amounts of the lines whose order id is in `ids`. */
  function AmountIn(lines: seq<Line>, ids: set<OrderId>): real
  {
    if lines == [] then 0.0
    else AmountIn(Init(lines), ids) + (if Last(lines).orderId in ids then Last(lines).amount else 0.0)
  }

  lemma {:induction false} SumAmountsAppend(a: seq<Line>, b: seq<Line>)
    ensures SumAmounts(a + b) == SumAmounts(a) + SumAmounts(b)
    decreases |b|
  {
    if b != [] {
      assert Init(a + b) == a + Init(b);
      SumAmountsAppend(a, Init(b));
    } else {
      assert a + b == a;
    }
  }

  lemma {:induction false} SumAmountsNonNegative(ls: seq<Line>)
    requires NonNegativeAmounts(ls)
    ensures SumAmounts(ls) >= 0.0
    decreases |ls|
  {
    if ls != [] {
      assert forall l :: l in Init(ls) ==> l in ls;
      SumAmountsNonNegative(Init(ls));
    }
  }

  /**
   * The total of order `id`: the stored amounts of its lines, summed. An order
   * without lines totals 0, and no total is negative when no amount is.
   */
  function OrderTotal(lines: seq<Line>, id: OrderId): (r: real)
    ensures (forall l :: l in lines ==> l.orderId != id) ==> r == 0.0
    ensures NonNegativeAmounts(lines) ==> r >= 0.0
  {
    var mine := LinesOfOrder(lines, id);
    assert (forall l :: l in lines ==> l.orderId != id) ==> mine == [] by {
      if mine != [] { assert mine[0] in mine; }
    }
    assert NonNegativeAmounts(lines) ==> SumAmounts(mine) >= 0.0 by {
      if NonNegativeAmounts(lines) { SumAmountsNonNegative(mine); }
    }
    SumAmounts(mine)
  }

  /** Splitting the OrderLines relation splits every order's total accordingly. */
  lemma {:induction false} OrderTotalAppend(a: seq<Line>, b: seq<Line>, id: OrderId)
    ensures OrderTotal(a + b, id) == OrderTotal(a, id) + OrderTotal(b, id)
  {
    LinesOfOrderAppend(a, b, id);
    SumAmountsAppend(LinesOfOrder(a, id), LinesOfOrder(b, id));
  }

  lemma {:induction false} LinesOfOrderAppend(a: seq<Line>, b: seq<Line>, id: OrderId)
    ensures LinesOfOrder(a + b, id) == LinesOfOrder(a, id) + LinesOfOrder(b, id)
    decreases |b|
  {
    if b == [] {
      assert a + b == a;
    } else {
      assert Init(a + b) == a + Init(b);
      assert Last(a + b) == Last(b);
      LinesOfOrderAppend(a, Init(b), id);
    }
  }

  /**
   * When every stored amount is quantity times rate, the order total is the
   * sum of quantity times rate over the order's lines.
   */
  lemma {:induction false} OrderTotalIsQuantityTimesRate(lines: seq<Line>, id: OrderId)
    requires forall l :: l in lines ==> l.amount == l.quantity * l.rate
    ensures OrderTotal(lines, id) == SumQuantityTimesRate(LinesOfOrder(lines, id))
  {
    StoredAmountsAreProducts(LinesOfOrder(lines, id));
  }

  lemma {:induction false} StoredAmountsAreProducts(ls: seq<Line>)
    requires forall l :: l in ls ==> l.amount == l.quantity * l.rate
    ensures SumAmounts(ls) == SumQuantityTimesRate(ls)
    decreases |ls|
  {
    if ls != [] {
      assert forall l :: l in Init(ls) ==> l in ls;
      assert Last(ls) in ls;
      StoredAmountsAreProducts(Init(ls));
    }
  }

  /** One more line adds its amount to its own order's total and to no other. */
  lemma OrderTotalSnoc(lines: seq<Line>, l: Line, id: OrderId)
    ensures OrderTotal(lines + [l], id) == OrderTotal(lines, id) + (if l.orderId == id then l.amount else 0.0)
  {
    InitOfSnoc(lines, l);
    var mine := LinesOfOrder(lines, id);
    if l.orderId == id {
      assert LinesOfOrder(lines + [l], id) == mine + [l];
      InitOfSnoc(mine, l);
    } else {
      assert LinesOfOrder(lines + [l], id) == mine + [];
      assert mine + [] == mine;
    }
  }

  /** Adding one more order id to `ids` adds exactly that order's total. */
  lemma {:induction false} AmountInAddOrder(lines: seq<Line>, ids: set<OrderId>, id: OrderId)
    requires id !in ids
    ensures AmountIn(lines, ids + {id}) == AmountIn(lines, ids) + OrderTotal(lines, id)
    decreases |lines|
  {
    if lines == [] {
      assert LinesOfOrder(lines, id) == [];
    } else {
      var rest, l := Init(lines), Last(lines);
      assert lines == rest + [l];
      AmountInAddOrder(rest, ids, id);
      OrderTotalSnoc(rest, l, id);
    }
  }

  /** When every line's order id is in `ids`, AmountIn counts every line. */
  lemma {:induction false} AmountInCoversAll(lines: seq<Line>, ids: set<OrderId>)
    requires forall l :: l in lines ==> l.orderId in ids
    ensures AmountIn(lines, ids) == SumAmounts(lines)
    decreases |lines|
  {
    if lines != [] {
      assert forall l :: l in Init(lines) ==> l in lines;
      assert Last(lines) in lines;
      AmountInCoversAll(Init(lines), ids);
    }
  }

  // ---- Dashboard tallies ----

  /** The orders whose status is `s`, in Orders order (a boolean-mask selection). */
  function WithStatus(orders: seq<Order>, s: Status): seq<Order>
  {
    if orders == [] then []
    else WithStatus(Init(orders), s) + (if Last(orders).status == s then [Last(orders)] else [])
  }

  /** The status filter keeps exactly the orders of that status, and no more orders than it is given. */
  lemma {:induction false} WithStatusMembers(orders: seq<Order>, s: Status)
    ensures forall o :: o in WithStatus(orders, s) <==> o in orders && o.status == s
    ensures |WithStatus(orders, s)| <= |orders|
    decreases |orders|
  {
    if orders != [] {
      var rest, o := Init(orders), Last(orders);
      assert orders == rest + [o];
      WithStatusMembers(rest, s);
    }
  }

  /** The Active orders whose payment is still Pending. */
  function ActivePending(orders: seq<Order>): seq<Order>
  {
    if orders == [] then []
    else
      var o := Last(orders);
      ActivePending(Init(orders)) + (if o.status == Active && o.payment == Pending then [o] else [])
  }

  /** Sum of the order totals of `orders`. */
  function SumOrderTotals(orders: seq<Order>, lines: seq<Line>): real
  {
    if orders == [] then 0.0
    else SumOrderTotals(Init(orders), lines) + OrderTotal(lines, Last(orders).id)
  }

  lemma WithStatusSnoc(orders: seq<Order>, o: Order, s: Status)
    ensures o.status == s ==> WithStatus(orders + [o], s) == WithStatus(orders, s) + [o]
    ensures o.status != s ==> WithStatus(orders + [o], s) == WithStatus(orders, s)
  {
    InitOfSnoc(orders, o);
    assert WithStatus(orders, s) + [] == WithStatus(orders, s);
  }

  lemma ActivePendingSnoc(orders: seq<Order>, o: Order)
    ensures o.status == Active && o.payment == Pending ==> ActivePending(orders + [o]) == ActivePending(orders) + [o]
    ensures !(o.status == Active && o.payment == Pending) ==> ActivePending(orders + [o]) == ActivePending(orders)
  {
    InitOfSnoc(orders, o);
    assert ActivePending(orders) + [] == ActivePending(orders);
  }

  predicate OnlyActiveOrCompleted(orders: seq<Order>)
  {
    forall o :: o in orders ==> o.status == Active || o.status == Completed
  }

  lemma SumOrderTotalsSnoc(orders: seq<Order>, o: Order, lines: seq<Line>)
    ensures SumOrderTotals(orders + [o], lines) == SumOrderTotals(orders, lines) + OrderTotal(lines, o.id)
  {
    InitOfSnoc(orders, o);
  }

  lemma {:induction false} SumOrderTotalsNonNegative(orders: seq<Order>, lines: seq<Line>)
    requires NonNegativeAmounts(lines)
    ensures SumOrderTotals(orders, lines) >= 0.0
    decreases |orders|
  {
    if orders != [] {
      SumOrderTotalsNonNegative(Init(orders), lines);
    }
  }

  /**
   * Every order lands in exactly one of the Active and Completed tallies, so
   * when no other status occurs the overall total is their sum.
   */
  lemma {:induction false} TotalIsActivePlusCompleted(orders: seq<Order>, lines: seq<Line>)
    requires OnlyActiveOrCompleted(orders)
    ensures SumOrderTotals(orders, lines)
         == SumOrderTotals(WithStatus(orders, Active), lines) + SumOrderTotals(WithStatus(orders, Completed), lines)
    decreases |orders|
  {
    if orders != [] {
      var rest, o := Init(orders), Last(orders);
      assert o in orders;
      assert OnlyActiveOrCompleted(rest) by {
        forall p | p in rest ensures p in orders { assert orders == rest + [o]; }
      }
      TotalIsActivePlusCompleted(rest, lines);
      var a, c := WithStatus(rest, Active), WithStatus(rest, Completed);
      if o.status == Active {
        assert WithStatus(orders, Active) == a + [o];
        assert WithStatus(orders, Completed) == c;
        SumOrderTotalsSnoc(a, o, lines);
      } else {
        assert WithStatus(orders, Active) == a;
        assert WithStatus(orders, Completed) == c + [o];
        SumOrderTotalsSnoc(c, o, lines);
      }
    }
  }

  /** The pending tally only grows together with the Active tally. */
  lemma {:induction false} PendingWithinActive(orders: seq<Order>, lines: seq<Line>)
    requires NonNegativeAmounts(lines)
    ensures 0.0 <= SumOrderTotals(ActivePending(orders), lines) <= SumOrderTotals(WithStatus(orders, Active), lines)
    decreases |orders|
  {
    SumOrderTotalsNonNegative(ActivePending(orders), lines);
    if orders != [] {
      var rest, o := Init(orders), Last(orders);
      PendingWithinActive(rest, lines);
      var a, p := WithStatus(rest, Active), ActivePending(rest);
      if o.status == Active {
        assert WithStatus(orders, Active) == a + [o];
        SumOrderTotalsSnoc(a, o, lines);
        if o.payment == Pending {
          assert ActivePending(orders) == p + [o];
          SumOrderTotalsSnoc(p, o, lines);
        } else {
          assert ActivePending(orders) == p;
        }
      } else {
        assert ActivePending(orders) == p;
        assert WithStatus(orders, Active) == a;
      }
    }
  }

  lemma {:induction false} SumOrderTotalsIsAmountIn(orders: seq<Order>, lines: seq<Line>)
    requires DistinctIds(orders)
    ensures SumOrderTotals(orders, lines) == AmountIn(lines, OrderIds(orders))
    decreases |orders|
  {
    if orders == [] {
      assert OrderIds(orders) == {};
      AmountInNoIds(lines);
    } else {
      var o := Last(orders);
      var rest := Init(orders);
      LastIdIsNew(orders);
      SumOrderTotalsIsAmountIn(rest, lines);
      AmountInAddOrder(lines, OrderIds(rest), o.id);
    }
  }

  lemma {:induction false} AmountInNoIds(lines: seq<Line>)
    ensures AmountIn(lines, {}) == 0.0
    decreases |lines|
  {
    if lines != [] { AmountInNoIds(Init(lines)); }
  }

  /**
   * With distinct order ids and no orphan lines, the overall tally is the sum
   * of every stored line amount: each line is counted once, in its own order.
   */
  lemma TotalIsAllLineAmounts(orders: seq<Order>, lines: seq<Line>)
    requires DistinctIds(orders) && NoOrphans(orders, lines)
    ensures SumOrderTotals(orders, lines) == SumAmounts(lines)
  {
    SumOrderTotalsIsAmountIn(orders, lines);
    AmountInCoversAll(lines, OrderIds(orders));
  }

  /**
   * The dashboard loop: one pass over Orders, adding each order's total to the
   * overall tally, and to the Active (and, if unpaid, the pending) or the
   * Completed tally by status; an order of any other status adds to the
   * overall tally only.
   */
  method DashboardTallies(orders: seq<Order>, lines: seq<Line>)
    returns (total: real, active: real, completed: real, pending: real)
    ensures total == SumOrderTotals(orders, lines)
    ensures active == SumOrderTotals(WithStatus(orders, Active), lines)
    ensures completed == SumOrderTotals(WithStatus(orders, Completed), lines)
    ensures pending == SumOrderTotals(ActivePending(orders), lines)
    ensures OnlyActiveOrCompleted(orders) ==> total == active + completed
    ensures NonNegativeAmounts(lines) ==> 0.0 <= pending <= active
    ensures DistinctIds(orders) && NoOrphans(orders, lines) ==> total == SumAmounts(lines)
  {
    total, active, completed, pending := 0.0, 0.0, 0.0, 0.0;
    for i := 0 to |orders|
      invariant total == SumOrderTotals(orders[..i], lines)
      invariant active == SumOrderTotals(WithStatus(orders[..i], Active), lines)
      invariant completed == SumOrderTotals(WithStatus(orders[..i], Completed), lines)
      invariant pending == SumOrderTotals(ActivePending(orders[..i]), lines)
    {
      var order := orders[i];
      ghost var done := orders[..i];
      assert orders[..i + 1] == done + [order];
      SumOrderTotalsSnoc(done, order, lines);
      WithStatusSnoc(done, order, Active);
      WithStatusSnoc(done, order, Completed);
      ActivePendingSnoc(done, order);
      var orderTotal := OrderTotal(lines, order.id);
      total := total + orderTotal;
      if order.status == Active {
        SumOrderTotalsSnoc(WithStatus(done, Active), order, lines);
        active := active + orderTotal;
        if order.payment == Pending {
          SumOrderTotalsSnoc(ActivePending(done), order, lines);
          pending := pending + orderTotal;
        }
      } else if order.status == Completed {
        SumOrderTotalsSnoc(WithStatus(done, Completed), order, lines);
        completed := completed + orderTotal;
      }
    }
    assert orders[..|orders|] == orders;
    TallyLaws(orders, lines);
  }

  /** The three laws of the dashboard tallies, together. */
  lemma TallyLaws(orders: seq<Order>, lines: seq<Line>)
    ensures OnlyActiveOrCompleted(orders) ==>
      SumOrderTotals(orders, lines) == SumOrderTotals(WithStatus(orders, Active), lines) + SumOrderTotals(WithStatus(orders, Completed), lines)
    ensures NonNegativeAmounts(lines) ==>
      0.0 <= SumOrderTotals(ActivePending(orders), lines) <= SumOrderTotals(WithStatus(orders, Active), lines)
    ensures DistinctIds(orders) && NoOrphans(orders, lines) ==> SumOrderTotals(orders, lines) == SumAmounts(lines)
  {
    if OnlyActiveOrCompleted(orders) { TotalIsActivePlusCompleted(orders, lines); }
    if NonNegativeAmounts(lines) { PendingWithinActive(orders, lines); }
    if DistinctIds(orders) && NoOrphans(orders, lines) { TotalIsAllLineAmounts(orders, lines); }
  }
}
