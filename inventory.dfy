/**
 * The inventory page's totals: all stock, and the sum of the stored Value
 * column (which the page does not recompute from rate and stock).
 */
module Inventory {
  import opened Records

  function TotalStock(items: seq<Item>): (r: real)
    ensures (forall it :: it in items ==> it.stock >= 0.0) ==> r >= 0.0
  {
    if items == [] then 0.0
    else
      assert items == Init(items) + [Last(items)];
      TotalStock(Init(items)) + Last(items).stock
  }

  function TotalValue(items: seq<Item>): real
  {
    if items == [] then 0.0 else TotalValue(Init(items)) + Last(items).value
  }

  /** The total inventory value is non-negative when no stored value is negative. */
  lemma {:induction false} TotalValueNonNegative(items: seq<Item>)
    requires forall it :: it in items ==> it.value >= 0.0
    ensures TotalValue(items) >= 0.0
    decreases |items|
  {
    if items != [] {
      assert items == Init(items) + [Last(items)];
      TotalValueNonNegative(Init(items));
    }
  }

  function TotalRateTimesStock(items: seq<Item>): real
  {
    if items == [] then 0.0 else TotalRateTimesStock(Init(items)) + Last(items).rate * Last(items).stock
  }

  /** When every stored value is rate times stock, the total value is the worth of the stock at list rates. */
  lemma {:induction false} TotalValueIsWorthOfStock(items: seq<Item>)
    requires forall it :: it in items ==> it.value == it.rate * it.stock
    ensures TotalValue(items) == TotalRateTimesStock(items)
    decreases |items|
  {
    if items != [] {
      var rest, it := Init(items), Last(items);
      assert items == rest + [it];
      TotalValueIsWorthOfStock(rest);
    }
  }
}
