/**
 * Small concrete cases: a one-item snapshot, two Active orders over-asking
 * for one item, and a slice of the embedded order data.
 */
module Scenarios {
  import opened Records
  import OrderTotals
  import Demand
  import ItemRanking

  /** One item, one Active order of half a kilogram: total 200, demand 0.5, 7.5 kg to spare, no alert. */
  lemma OneItemSnapshot()
    ensures var items := [Item("Chakli", 400.0, 8.0, 3200.0)];
      var orders := [Order(1, "A", 0, Active, Pending)];
      var lines := [Line(1, "Chakli", 0.5, 400.0, 200.0)];
      && OrderTotals.OrderTotal(lines, 1) == 200.0
      && Demand.RequiredByItem(orders, lines) == map["Chakli" := 0.5]
      && items[0].stock - Demand.ActiveQuantity(orders, lines, "Chakli") == 7.5
      && Demand.AlertsOf(items, orders, lines) == []
  {
    var items := [Item("Chakli", 400.0, 8.0, 3200.0)];
    var orders := [Order(1, "A", 0, Active, Pending)];
    var lines := [Line(1, "Chakli", 0.5, 400.0, 200.0)];
    assert Init(lines) == [] && Init(orders) == [] && Init(items) == [];
    assert Demand.ActiveIds(orders) == {1} by { assert orders[0] in orders; }
    assert OrderTotals.LinesOfOrder(lines, 1) == lines;
  }

  /** Two Active orders of 1 kg each against 1 kg of stock: demand 2, short by 1. */
  lemma TwoOrdersOverAskOneItem()
    ensures var item := Item("Besan Laddu", 580.0, 1.0, 580.0);
      var orders := [Order(1, "A", 0, Active, Pending), Order(2, "B", 0, Active, Paid)];
      var lines := [Line(1, "Besan Laddu", 1.0, 580.0, 580.0), Line(2, "Besan Laddu", 1.0, 580.0, 580.0)];
      && Demand.ActiveQuantity(orders, lines, "Besan Laddu") == 2.0
      && Demand.AlertOf(item, orders, lines) == Some(Demand.Shortage("Besan Laddu", 1.0, 2.0, 1.0))
  {
    var orders := [Order(1, "A", 0, Active, Pending), Order(2, "B", 0, Active, Paid)];
    var lines := [Line(1, "Besan Laddu", 1.0, 580.0, 580.0), Line(2, "Besan Laddu", 1.0, 580.0, 580.0)];
    assert Demand.ActiveIds(orders) == {1, 2} by { assert orders[0] in orders && orders[1] in orders; }
    assert Init(lines) == [lines[0]] && Init([lines[0]]) == [];
  }

  /** Order 7 of the embedded data (Active) totals 480 from its two stored amounts. */
  lemma EmbeddedOrderTotal()
    ensures OrderTotals.OrderTotal([Line(1, "Shankarpade(Salty)", 0.25, 380.0, 95.0),
                                    Line(7, "Besan Laddu", 0.5, 580.0, 290.0),
                                    Line(7, "Shankarpade(Salty)", 0.5, 380.0, 190.0)], 7) == 480.0
  {
    var lines := [Line(1, "Shankarpade(Salty)", 0.25, 380.0, 95.0),
                  Line(7, "Besan Laddu", 0.5, 580.0, 290.0),
                  Line(7, "Shankarpade(Salty)", 0.5, 380.0, 190.0)];
    assert Init(lines) == [lines[0], lines[1]] && Init([lines[0], lines[1]]) == [lines[0]] && Init([lines[0]]) == [];
  }

  /**
   * Orders 1 (Completed) and 7 (Active) of the embedded data both ask for
   * Shankarpade(Salty): only order 7's half kilogram is demand, while the
   * top-items figure counts both lines.
   */
  lemma EmbeddedDemand()
    ensures var orders := [Order(1, "Pradnya Ingle", 0, Completed, Paid), Order(7, "Katle Sister", 12, Active, Pending)];
      var lines := [Line(1, "Shankarpade(Salty)", 0.25, 380.0, 95.0),
                    Line(7, "Shankarpade(Salty)", 0.5, 380.0, 190.0)];
      && Demand.ActiveQuantity(orders, lines, "Shankarpade(Salty)") == 0.5
      && ItemRanking.QuantityOfItem(lines, "Shankarpade(Salty)") == 0.75
  {
    var orders := [Order(1, "Pradnya Ingle", 0, Completed, Paid), Order(7, "Katle Sister", 12, Active, Pending)];
    var lines := [Line(1, "Shankarpade(Salty)", 0.25, 380.0, 95.0),
                  Line(7, "Shankarpade(Salty)", 0.5, 380.0, 190.0)];
    assert Demand.ActiveIds(orders) == {7} by { assert orders[1] in orders; }
    assert Init(lines) == [lines[0]] && Init([lines[0]]) == [];
  }
}
