/**
 * Per-item aggregates over all order lines, whatever the order's status: the
 * dashboard's top items by quantity (group by item, sum quantity and amount,
 * sort by quantity descending, keep the first five) and the per-item
 * statistics of the item-wise customer page (line count, quantity, amount).
 */
module ItemRanking {
  import opened Records

  /** Sum of the quantities of every line of item `name`. */
  function QuantityOfItem(lines: seq<Line>, name: ItemName): real
  {
    if lines == [] then 0.0
    else QuantityOfItem(Init(lines), name) + (if Last(lines).itemName == name then Last(lines).quantity else 0.0)
  }

  /** Sum of the stored amounts of every line of item `name`. */
  function AmountOfItem(lines: seq<Line>, name: ItemName): real
  {
    if lines == [] then 0.0
    else AmountOfItem(Init(lines), name) + (if Last(lines).itemName == name then Last(lines).amount else 0.0)
  }

  /** Sum of the quantities of every line. */
  function TotalQuantity(lines: seq<Line>): real
  {
    if lines == [] then 0.0 else TotalQuantity(Init(lines)) + Last(lines).quantity
  }

  predicate Ordered(lines: seq<Line>, name: ItemName)
  {
    exists l :: l in lines && l.itemName == name
  }

  /** The item names of `lines`, each once, in order of first appearance (the group keys). */
  function ItemNames(lines: seq<Line>): (r: seq<ItemName>)
    ensures forall n :: n in r <==> Ordered(lines, n)
    ensures forall i, j :: 0 <= i < j < |r| ==> r[i] != r[j]
  {
    if lines == [] then []
    else
      var names := ItemNames(Init(lines));
      var l := Last(lines);
      assert lines == Init(lines) + [l];
      if l.itemName in names then names else names + [l.itemName]
  }

  /** One group of the top-items table. */
  datatype ItemSummary = ItemSummary(name: ItemName, quantity: real, amount: real)

  /** The groups for `names`, in that order, each with the sums over every line of its item. */
  function SummariesOf(lines: seq<Line>, names: seq<ItemName>): (r: seq<ItemSummary>)
    ensures |r| == |names|
    ensures forall i :: 0 <= i < |r| ==> r[i] == ItemSummary(names[i], QuantityOfItem(lines, names[i]), AmountOfItem(lines, names[i]))
  {
    if names == [] then []
    else [ItemSummary(names[0], QuantityOfItem(lines, names[0]), AmountOfItem(lines, names[0]))] + SummariesOf(lines, names[1..])
  }

  predicate SortedByQuantity(s: seq<ItemSummary>)
  {
    forall i, j :: 0 <= i < j < |s| ==> s[i].quantity >= s[j].quantity
  }

  predicate DistinctNames(s: seq<ItemSummary>)
  {
    forall i, j :: 0 <= i < j < |s| ==> s[i].name != s[j].name
  }

  /** Insert `x` into a list sorted by descending quantity, ahead of the entries it is not smaller than. */
  function Insert(x: ItemSummary, s: seq<ItemSummary>): (r: seq<ItemSummary>)
    requires SortedByQuantity(s)
    ensures |r| == |s| + 1
    ensures forall e :: e in r <==> e == x || e in s
    ensures SortedByQuantity(r)
  {
    if s == [] then [x]
    else if x.quantity >= s[0].quantity then [x] + s
    else
      var tail := Insert(x, s[1..]);
      assert forall e :: e in s[1..] ==> s[0].quantity >= e.quantity by {
        forall e | e in s[1..] ensures s[0].quantity >= e.quantity {
          var k :| 0 <= k < |s[1..]| && s[1..][k] == e;
          assert s[k + 1] == e;
        }
      }
      assert s == [s[0]] + s[1..];
      [s[0]] + tail
  }

  lemma {:induction false} InsertIsPermutation(x: ItemSummary, s: seq<ItemSummary>)
    requires SortedByQuantity(s)
    ensures multiset(Insert(x, s)) == multiset(s) + multiset{x}
    decreases |s|
  {
    if s != [] && x.quantity < s[0].quantity {
      assert s == [s[0]] + s[1..];
      InsertIsPermutation(x, s[1..]);
    }
  }

  lemma {:induction false} InsertKeepsNamesDistinct(x: ItemSummary, s: seq<ItemSummary>)
    requires SortedByQuantity(s) && DistinctNames(s)
    requires forall e :: e in s ==> e.name != x.name
    ensures DistinctNames(Insert(x, s))
    decreases |s|
  {
    if s != [] {
      assert s == [s[0]] + s[1..];
      assert forall e :: e in s[1..] ==> e.name != s[0].name by {
        forall e | e in s[1..] ensures e.name != s[0].name {
          var k :| 0 <= k < |s[1..]| && s[1..][k] == e;
          assert s[k + 1] == e;
        }
      }
      if x.quantity < s[0].quantity {
        InsertKeepsNamesDistinct(x, s[1..]);
      }
    }
  }

  /** Sort by descending quantity (an insertion sort). */
  function SortByQuantity(s: seq<ItemSummary>): (r: seq<ItemSummary>)
    ensures SortedByQuantity(r)
    ensures |r| == |s|
    ensures forall e :: e in r <==> e in s
  {
    if s == [] then []
    else
      assert s == [s[0]] + s[1..];
      Insert(s[0], SortByQuantity(s[1..]))
  }

  /** The sort is a permutation of its input. */
  lemma {:induction false} SortIsPermutation(s: seq<ItemSummary>)
    ensures multiset(SortByQuantity(s)) == multiset(s)
    decreases |s|
  {
    if s != [] {
      assert s == [s[0]] + s[1..];
      SortIsPermutation(s[1..]);
      InsertIsPermutation(s[0], SortByQuantity(s[1..]));
    }
  }

  lemma {:induction false} SortKeepsNamesDistinct(s: seq<ItemSummary>)
    requires DistinctNames(s)
    ensures DistinctNames(SortByQuantity(s))
    decreases |s|
  {
    if s != [] {
      assert s == [s[0]] + s[1..];
      SortKeepsNamesDistinct(s[1..]);
      forall e | e in SortByQuantity(s[1..]) ensures e.name != s[0].name {
        var k :| 0 <= k < |s[1..]| && s[1..][k] == e;
        assert s[k + 1] == e;
      }
      InsertKeepsNamesDistinct(s[0], SortByQuantity(s[1..]));
    }
  }

  /** How many entries the dashboard shows. */
  const TopCount: nat := 5

  function Min(a: nat, b: nat): nat
  {
    if a <= b then a else b
  }

  /**
   * The top `n` items by quantity: one entry per ordered item, at most `n`,
   * sorted by descending summed quantity, each carrying the quantity and
   * amount summed over all of that item's lines; every ordered item left out
   * sold no more than any item that was kept.
   */
  function TopItems(lines: seq<Line>, n: nat): (r: seq<ItemSummary>)
    ensures |r| == Min(n, |ItemNames(lines)|)
    ensures SortedByQuantity(r)
    ensures DistinctNames(r)
    ensures forall e :: e in r ==>
      Ordered(lines, e.name) && e.quantity == QuantityOfItem(lines, e.name) && e.amount == AmountOfItem(lines, e.name)
    ensures forall name :: Ordered(lines, name) && (forall e :: e in r ==> e.name != name) ==>
      forall e :: e in r ==> QuantityOfItem(lines, name) <= e.quantity
  {
    var names := ItemNames(lines);
    var groups := SummariesOf(lines, names);
    var sorted := SortByQuantity(groups);
    var k := Min(n, |sorted|);
    SortKeepsNamesDistinct(groups);
    GroupsAreSums(lines, names, sorted);
    LeftOutSoldLess(lines, names, sorted, k);
    sorted[..k]
  }

  lemma GroupsAreSums(lines: seq<Line>, names: seq<ItemName>, sorted: seq<ItemSummary>)
    requires names == ItemNames(lines)
    requires forall e :: e in sorted <==> e in SummariesOf(lines, names)
    ensures forall e :: e in sorted ==>
      Ordered(lines, e.name) && e.quantity == QuantityOfItem(lines, e.name) && e.amount == AmountOfItem(lines, e.name)
  {
    var groups := SummariesOf(lines, names);
    forall e | e in sorted
      ensures Ordered(lines, e.name) && e.quantity == QuantityOfItem(lines, e.name) && e.amount == AmountOfItem(lines, e.name)
    {
      var i :| 0 <= i < |groups| && groups[i] == e;
      assert names[i] in names;
    }
  }

  lemma LeftOutSoldLess(lines: seq<Line>, names: seq<ItemName>, sorted: seq<ItemSummary>, k: nat)
    requires names == ItemNames(lines)
    requires forall e :: e in sorted <==> e in SummariesOf(lines, names)
    requires SortedByQuantity(sorted) && k <= |sorted|
    ensures forall name :: Ordered(lines, name) && (forall e :: e in sorted[..k] ==> e.name != name) ==>
      forall e :: e in sorted[..k] ==> QuantityOfItem(lines, name) <= e.quantity
  {
    var groups := SummariesOf(lines, names);
    var r := sorted[..k];
    forall name | Ordered(lines, name) && (forall e :: e in r ==> e.name != name)
      ensures forall e :: e in r ==> QuantityOfItem(lines, name) <= e.quantity
    {
      var i :| 0 <= i < |names| && names[i] == name;
      assert groups[i] in sorted;
      var j :| 0 <= j < |sorted| && sorted[j] == groups[i];
      assert forall m :: 0 <= m < k ==> r[m] in r && sorted[m] == r[m];
      assert j >= k;
      forall e | e in r ensures QuantityOfItem(lines, name) <= e.quantity {
        var m :| 0 <= m < k && r[m] == e;
        assert sorted[m] == e;
      }
    }
  }

  /** The dashboard's table: the top five items by quantity. */
  function TopFive(lines: seq<Line>): (r: seq<ItemSummary>)
    ensures |r| <= TopCount && |r| == Min(TopCount, |ItemNames(lines)|)
    ensures SortedByQuantity(r) && DistinctNames(r)
    ensures forall e :: e in r ==>
      Ordered(lines, e.name) && e.quantity == QuantityOfItem(lines, e.name) && e.amount == AmountOfItem(lines, e.name)
    ensures forall name :: Ordered(lines, name) && (forall e :: e in r ==> e.name != name) ==>
      forall e :: e in r ==> QuantityOfItem(lines, name) <= e.quantity
  {
    TopItems(lines, TopCount)
  }

  // ---- The shown quantities never exceed the total ----

  function SumQuantities(s: seq<ItemSummary>): real
  {
    if s == [] then 0.0 else s[0].quantity + SumQuantities(s[1..])
  }

  lemma {:induction false} InsertKeepsSum(x: ItemSummary, s: seq<ItemSummary>)
    requires SortedByQuantity(s)
    ensures SumQuantities(Insert(x, s)) == x.quantity + SumQuantities(s)
    decreases |s|
  {
    if s != [] && x.quantity < s[0].quantity {
      InsertKeepsSum(x, s[1..]);
      assert ([s[0]] + Insert(x, s[1..]))[1..] == Insert(x, s[1..]);
    } else {
      assert ([x] + s)[1..] == s;
    }
  }

  lemma {:induction false} SortKeepsSum(s: seq<ItemSummary>)
    ensures SumQuantities(SortByQuantity(s)) == SumQuantities(s)
    decreases |s|
  {
    if s != [] {
      SortKeepsSum(s[1..]);
      InsertKeepsSum(s[0], SortByQuantity(s[1..]));
    }
  }

  lemma {:induction false} PrefixSumAtMostSum(s: seq<ItemSummary>, k: nat)
    requires k <= |s|
    requires forall e :: e in s ==> e.quantity >= 0.0
    ensures SumQuantities(s[..k]) <= SumQuantities(s)
    decreases |s|
  {
    if s != [] {
      assert forall e :: e in s[1..] ==> e in s;
      assert s[0] in s;
      if k == 0 {
        SumNonNegative(s);
      } else {
        PrefixSumAtMostSum(s[1..], k - 1);
        assert s[..k][1..] == s[1..][..k - 1];
      }
    }
  }

  lemma {:induction false} SumNonNegative(s: seq<ItemSummary>)
    requires forall e :: e in s ==> e.quantity >= 0.0
    ensures SumQuantities(s) >= 0.0
    decreases |s|
  {
    if s != [] {
      assert forall e :: e in s[1..] ==> e in s;
      assert s[0] in s;
      SumNonNegative(s[1..]);
    }
  }

  lemma QuantityOfItemSnoc(lines: seq<Line>, l: Line, name: ItemName)
    ensures l.itemName == name ==> QuantityOfItem(lines + [l], name) == QuantityOfItem(lines, name) + l.quantity
    ensures l.itemName != name ==> QuantityOfItem(lines + [l], name) == QuantityOfItem(lines, name)
  {
    InitOfSnoc(lines, l);
  }

  lemma {:induction false} QuantityOfUnorderedItem(lines: seq<Line>, name: ItemName)
    requires !Ordered(lines, name)
    ensures QuantityOfItem(lines, name) == 0.0
    decreases |lines|
  {
    if lines != [] {
      assert lines == Init(lines) + [Last(lines)];
      QuantityOfUnorderedItem(Init(lines), name);
    }
  }

  lemma {:induction false} QuantityOfItemNonNegative(lines: seq<Line>, name: ItemName)
    requires NonNegativeQuantities(lines)
    ensures QuantityOfItem(lines, name) >= 0.0
    decreases |lines|
  {
    if lines != [] {
      assert lines == Init(lines) + [Last(lines)];
      QuantityOfItemNonNegative(Init(lines), name);
    }
  }

  /** One more line adds its quantity to the one group (if listed) of its item. */
  lemma {:induction false} GroupsAfterOneMoreLine(lines: seq<Line>, l: Line, names: seq<ItemName>)
    requires forall i, j :: 0 <= i < j < |names| ==> names[i] != names[j]
    ensures SumQuantities(SummariesOf(lines + [l], names))
         == SumQuantities(SummariesOf(lines, names)) + (if l.itemName in names then l.quantity else 0.0)
    decreases |names|
  {
    if names != [] {
      QuantityOfItemSnoc(lines, l, names[0]);
      assert names == [names[0]] + names[1..];
      GroupsAfterOneMoreLine(lines, l, names[1..]);
    }
  }

  lemma {:induction false} GroupsOfOneMoreName(lines: seq<Line>, names: seq<ItemName>, name: ItemName)
    ensures SumQuantities(SummariesOf(lines, names + [name]))
         == SumQuantities(SummariesOf(lines, names)) + QuantityOfItem(lines, name)
    decreases |names|
  {
    if names == [] {
      assert SummariesOf(lines, [name])[1..] == [];
    } else {
      assert (names + [name])[1..] == names[1..] + [name];
      GroupsOfOneMoreName(lines, names[1..], name);
    }
  }

  /** The groups partition the lines: their quantities add up to the total quantity. */
  lemma {:induction false} GroupsPartitionQuantity(lines: seq<Line>)
    ensures SumQuantities(SummariesOf(lines, ItemNames(lines))) == TotalQuantity(lines)
    decreases |lines|
  {
    if lines != [] {
      var rest, l := Init(lines), Last(lines);
      assert lines == rest + [l];
      var names := ItemNames(rest);
      GroupsPartitionQuantity(rest);
      GroupsAfterOneMoreLine(rest, l, ItemNames(lines));
      if l.itemName !in names {
        GroupsOfOneMoreName(rest, names, l.itemName);
        QuantityOfUnorderedItem(rest, l.itemName);
      }
    }
  }

  /** With no negative quantity, the shown quantities add up to at most the total quantity ordered. */
  lemma TopItemsWithinTotal(lines: seq<Line>, n: nat)
    requires NonNegativeQuantities(lines)
    ensures SumQuantities(TopItems(lines, n)) <= TotalQuantity(lines)
  {
    var groups := SummariesOf(lines, ItemNames(lines));
    var sorted := SortByQuantity(groups);
    forall e | e in sorted ensures e.quantity >= 0.0 {
      var i :| 0 <= i < |groups| && groups[i] == e;
      QuantityOfItemNonNegative(lines, e.name);
    }
    PrefixSumAtMostSum(sorted, Min(n, |sorted|));
    SortKeepsSum(groups);
    GroupsPartitionQuantity(lines);
  }

  // ---- Per-item statistics ----

  /** The statistics of one item: its number of lines ("Total Orders"), quantity and revenue. */
  datatype ItemStats = ItemStats(lineCount: nat, quantity: real, amount: real)

  /** The number of lines of item `name` (the `count` of their order ids). */
  function LineCount(lines: seq<Line>, name: ItemName): (r: nat)
    ensures r <= |lines|
  {
    if lines == [] then 0 else LineCount(Init(lines), name) + (if Last(lines).itemName == name then 1 else 0)
  }

  /** The positions of the lines of item `name`. */
  function LinePositions(lines: seq<Line>, name: ItemName): set<nat>
  {
    set i: nat | i < |lines| && lines[i].itemName == name
  }

  /** The line count is the number of positions holding a line of the item: every such line counts once. */
  lemma {:induction false} LineCountIsNumberOfLines(lines: seq<Line>, name: ItemName)
    ensures LineCount(lines, name) == |LinePositions(lines, name)|
    decreases |lines|
  {
    if lines == [] {
      assert LinePositions(lines, name) == {};
    } else {
      var rest, l := Init(lines), Last(lines);
      assert lines == rest + [l];
      LineCountIsNumberOfLines(rest, name);
      var before := LinePositions(rest, name);
      assert |rest| !in before;
      if l.itemName == name {
        assert LinePositions(lines, name) == before + {|rest|};
      } else {
        assert LinePositions(lines, name) == before;
      }
    }
  }

  lemma {:induction false} LineCountPositive(lines: seq<Line>, name: ItemName)
    ensures LineCount(lines, name) > 0 <==> Ordered(lines, name)
    decreases |lines|
  {
    if lines != [] {
      assert lines == Init(lines) + [Last(lines)];
      LineCountPositive(Init(lines), name);
    }
  }

  /**
   * The statistics row of item `name`: absent exactly when no line names the
   * item ("not ordered yet"), otherwise its line count, summed quantity and
   * summed amount over all lines.
   */
  function StatsOf(lines: seq<Line>, name: ItemName): (r: Option<ItemStats>)
    ensures r.None? <==> !Ordered(lines, name)
    ensures r.Some? ==> r.value.lineCount >= 1 && r.value.lineCount == LineCount(lines, name)
    ensures r.Some? ==> r.value.quantity == QuantityOfItem(lines, name) && r.value.amount == AmountOfItem(lines, name)
  {
    LineCountPositive(lines, name);
    var count := LineCount(lines, name);
    if count == 0 then None
    else Some(ItemStats(count, QuantityOfItem(lines, name), AmountOfItem(lines, name)))
  }

  /** Every top item's figures are the same as its statistics row. */
  lemma TopItemsAgreeWithStats(lines: seq<Line>, n: nat, e: ItemSummary)
    requires e in TopItems(lines, n)
    ensures StatsOf(lines, e.name).Some?
    ensures StatsOf(lines, e.name).value.quantity == e.quantity
    ensures StatsOf(lines, e.name).value.amount == e.amount
  {
  }
}
