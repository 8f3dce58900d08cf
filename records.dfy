/**
 * The three flat relations the order tracker works over, as already-parsed
 * records: Items (name, rate, stock, stored value), Orders and OrderLines.
 * Quantities are kilograms and amounts rupees, both exact `real`s; dates are
 * day numbers, so "days left" is a plain integer difference.
 */
module Records {

  type ItemName = string
  type OrderId = int
  /** A calendar date as a day number; only differences between dates matter. */
  type Day = int

  datatype Option<T> = None | Some(value: T)

  /**
   * An order is Active until delivered; any other label falls through every
   * status test. Status cells are read through StatusOf, so `OtherStatus`
   * never carries the text "Active" or "Completed" (see Canonical).
   */
  datatype Status = Active | Completed | OtherStatus(text: string)

  /** A status as StatusOf produces it: an unrecognised label is neither of the two known ones. */
  predicate Canonical(s: Status)
  {
    s.OtherStatus? ==> s.text != "Active" && s.text != "Completed"
  }

  /**
   * The status a Status cell's text stands for: the page compares the text
   * with "Active" and "Completed" exactly, so only those two are recognised.
   */
  function StatusOf(text: string): (r: Status)
    ensures r == Active <==> text == "Active"
    ensures r == Completed <==> text == "Completed"
    ensures r.OtherStatus? ==> r.text == text
    ensures Canonical(r)
  {
    if text == "Active" then Active
    else if text == "Completed" then Completed
    else OtherStatus(text)
  }

  /** The text a status is shown as. */
  function StatusText(s: Status): string
  {
    match s
    case Active => "Active"
    case Completed => "Completed"
    case OtherStatus(t) => t
  }

  /** Reading a cell and showing it again gives back the cell's text, and every canonical status is read back unchanged. */
  lemma StatusRoundTrip(text: string, s: Status)
    ensures StatusText(StatusOf(text)) == text
    ensures Canonical(s) ==> StatusOf(StatusText(s)) == s
  {
  }

  /**
   * The payment states of the embedded data. Unlike Status, this type has no
   * case for an unrecognised label: the page only tests the text for
   * "Pending" and otherwise just shows it, so no figure depends on the others.
   */
  datatype Payment = Pending | Paid | Partial

  /** A row of Items; `value` is the stored Value column (not recomputed as rate * stock). */
  datatype Item = Item(name: ItemName, rate: real, stock: real, value: real)

  datatype Order = Order(id: OrderId, customer: string, delivery: Day, status: Status, payment: Payment)

  /** A row of OrderLines; `amount` is the stored Amount column. */
  datatype Line = Line(orderId: OrderId, itemName: ItemName, quantity: real, rate: real, amount: real)

  function Init<T>(s: seq<T>): seq<T>
    requires |s| > 0
  {
    s[..|s| - 1]
  }

  function Last<T>(s: seq<T>): T
    requires |s| > 0
  {
    s[|s| - 1]
  }

  lemma InitOfSnoc<T>(s: seq<T>, x: T)
    ensures Init(s + [x]) == s && Last(s + [x]) == x
  {
    assert (s + [x])[..|s|] == s;
  }

  /** The order ids are distinct (they are assigned monotonically on creation). */
  predicate DistinctIds(orders: seq<Order>)
  {
    forall i, j :: 0 <= i < j < |orders| ==> orders[i].id != orders[j].id
  }

  function OrderIds(orders: seq<Order>): set<OrderId>
  {
    set o | o in orders :: o.id
  }

  /** Removing the last order keeps ids distinct and removes exactly its id, which no other order has. */
  lemma LastIdIsNew(orders: seq<Order>)
    requires DistinctIds(orders) && |orders| > 0
    ensures DistinctIds(Init(orders))
    ensures Last(orders).id !in OrderIds(Init(orders))
    ensures OrderIds(orders) == OrderIds(Init(orders)) + {Last(orders).id}
  {
    var rest, o := Init(orders), Last(orders);
    assert orders == rest + [o];
    forall p | p in rest ensures p.id != o.id {
      var k :| 0 <= k < |rest| && rest[k] == p;
      assert orders[k].id != orders[|orders| - 1].id;
    }
  }

  /** Every line refers to an existing order. */
  predicate NoOrphans(orders: seq<Order>, lines: seq<Line>)
  {
    forall l :: l in lines ==> l.orderId in OrderIds(orders)
  }

  predicate NonNegativeAmounts(lines: seq<Line>)
  {
    forall l :: l in lines ==> l.amount >= 0.0
  }

  predicate NonNegativeQuantities(lines: seq<Line>)
  {
    forall l :: l in lines ==> l.quantity >= 0.0
  }
}
