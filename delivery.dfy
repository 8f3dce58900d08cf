/**
 * Delivery urgency of the Active orders list and the dashboard's deliveries
 * due today. "Today" is a parameter: the clock is not part of the model.
 */
module Delivery {
  import opened Records

  /** The urgency label of an order, from the number of days until its delivery date. */
  datatype Urgency = Overdue(daysLate: nat) | DueToday | DueTomorrow | DueIn(days: nat)

  /** The signed number of days from `today` to the order's delivery day: negative once it has passed. */
  function DaysLeft(o: Order, today: Day): (r: int)
    ensures today + r == o.delivery
    ensures r < 0 <==> o.delivery < today
  {
    o.delivery - today
  }

  /** The number of days left that an urgency label stands for. */
  function DaysLeftOf(u: Urgency): int
  {
    match u
    case Overdue(late) => -(late as int)
    case DueToday => 0
    case DueTomorrow => 1
    case DueIn(d) => d
  }

  /**
   * Classify the days left: overdue by |d| days when negative, today when 0,
   * tomorrow when 1, "in d days" beyond that. Every integer gets exactly one
   * label, and the label loses nothing: the days left can be read back from it.
   */
  function Classify(daysLeft: int): (r: Urgency)
    ensures r.Overdue? <==> daysLeft < 0
    ensures r.Overdue? ==> r.daysLate == -daysLeft
    ensures r.DueToday? <==> daysLeft == 0
    ensures r.DueTomorrow? <==> daysLeft == 1
    ensures r.DueIn? <==> daysLeft > 1
    ensures DaysLeftOf(r) == daysLeft
  {
    if daysLeft < 0 then Overdue(-daysLeft)
    else if daysLeft == 0 then DueToday
    else if daysLeft == 1 then DueTomorrow
    else DueIn(daysLeft)
  }

  /** The Active orders to be delivered on day `today`, in Orders order. */
  function TodaysDeliveries(orders: seq<Order>, today: Day): (r: seq<Order>)
    ensures |r| <= |orders|
  {
    if orders == [] then []
    else
      var o := Last(orders);
      TodaysDeliveries(Init(orders), today) + (if o.status == Active && o.delivery == today then [o] else [])
  }

  /**
   * An order is among today's deliveries exactly when it is Active and due
   * today, and each of them is labelled "today" on the Active orders list.
   */
  lemma {:induction false} TodaysDeliveriesMembers(orders: seq<Order>, today: Day)
    ensures forall o :: o in TodaysDeliveries(orders, today) <==> o in orders && o.status == Active && o.delivery == today
    ensures forall o :: o in TodaysDeliveries(orders, today) ==> Classify(DaysLeft(o, today)) == DueToday
    decreases |orders|
  {
    if orders != [] {
      var rest, o := Init(orders), Last(orders);
      assert orders == rest + [o];
      TodaysDeliveriesMembers(rest, today);
    }
  }

  /**
   * Today's deliveries keep Orders order and count each order once: the
   * deliveries of two concatenated order lists are the two lists concatenated.
   */
  lemma {:induction false} TodaysDeliveriesAppend(a: seq<Order>, b: seq<Order>, today: Day)
    ensures TodaysDeliveries(a + b, today) == TodaysDeliveries(a, today) + TodaysDeliveries(b, today)
    decreases |b|
  {
    if b == [] {
      assert a + b == a;
    } else {
      assert Init(a + b) == a + Init(b);
      assert Last(a + b) == Last(b);
      TodaysDeliveriesAppend(a, Init(b), today);
    }
  }

  /** A single order is among today's deliveries once when it is Active and due today, and otherwise not at all. */
  lemma TodaysDeliveriesOfOne(o: Order, today: Day)
    ensures o.status == Active && o.delivery == today ==> TodaysDeliveries([o], today) == [o]
    ensures !(o.status == Active && o.delivery == today) ==> TodaysDeliveries([o], today) == []
  {
    assert Init([o]) == [] && Last([o]) == o;
  }
}
