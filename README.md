# Diwali orders: order and stock reconciliation

This project models the reconciliation logic of the embedded-data Diwali orders dashboard (`diwali_orders.py`). The dashboard is a small tracker for a seasonal home-snack business. It holds three tables:

- **Items**: name, rate per kg, stock in kg, stored stock value.
- **Orders**: id, customer name, delivery date, status, payment state.
- **Order lines**: order id, item name, quantity in kg, rate, stored amount.

From these tables the page derives these views:

- each order's total;
- the dashboard tallies (total, Active, Completed, pending-payment amounts);
- today's deliveries;
- the top five items by quantity;
- the Active demand for each item;
- the dashboard's stock alerts (short, or less than 2 kg surplus);
- the stock-analysis table and its shopping list;
- the delivery-urgency label of each Active order;
- the inventory totals;
- the item-wise customer page (which orders contain an item, the item's statistics, and one detail row per customer).

Modelling choices:

- Quantities, rates, amounts and stock are exact `real` numbers.
- Dates are integer day numbers. "Today" is a parameter.
- `Status` has `Active`, `Completed` and `OtherStatus(text)`. Cells are read through `Records.StatusOf`, which recognises exactly the texts "Active" and "Completed", as the page's string tests do. Any other text therefore falls through both branches of the dashboard's `if`/`elif`, as it does in the code.
- Sums and filters recurse from the back of a sequence (`Init`/`Last`). This matches the page's left-to-right loops, so a loop invariant over `s[..i]` unfolds in one step.
- Loops of the page are `method`s with `for` loops whose `ensures` tie their results to the specification functions:
  - dashboard tallies: `OrderTotals.DashboardTallies`
  - stock analysis: `Demand.StockAnalysis`
  - stock alerts: `Demand.StockAlerts`
  - customer details: `ItemCustomers.CustomerDetails`
- Expressions of the page are functions, and lemmas state the properties.

Modules:

- `Records`: the three tables as datatypes.
- `OrderTotals`: order totals and the dashboard tallies.
- `Demand`: the required-by-item grouping, stock analysis, shopping list and stock alerts.
- `ItemRanking`: the top items and per-item statistics.
- `ItemCustomers`: the item-wise customer page.
- `Delivery`: the urgency labels and today's deliveries.
- `Inventory`: the inventory totals.
- `Scenarios`: worked cases on concrete rows, including rows of the embedded data.

## Model

| member | source | states |
|---|---|---|
| Records.LastIdIsNew | diwali_orders.py:248-250 | with distinct order ids, the last order's id is new to the earlier orders and the id set grows by exactly that id |
| Records.StatusOf | diwali_orders.py:252-257 | a Status cell reads as Active exactly when its text is "Active", as Completed exactly when it is "Completed", and otherwise as an unrecognised label carrying the text, which is then neither of the two |
| Records.StatusRoundTrip | diwali_orders.py:252-257 | showing a read cell gives back its text, and every canonical status is read back unchanged |
| OrderTotals.OrderTotal | diwali_orders.py:214-216 | an order's total is the sum of the stored amounts of its lines; it is 0 when no line belongs to the order and never negative when no amount is |
| OrderTotals.LinesOfOrder | diwali_orders.py:215 | a line is selected exactly when it is a line of the given order; the selection is never longer than the table |
| OrderTotals.OrderTotalAppend | diwali_orders.py:214-216 | the total over two concatenated line tables is the sum of the two totals |
| OrderTotals.OrderTotalSnoc | diwali_orders.py:214-216 | one more line adds its amount to its own order's total and leaves every other order's total unchanged |
| OrderTotals.OrderTotalIsQuantityTimesRate | diwali_orders.py:214-216 | when every stored amount is quantity times rate, the order total equals the sum of quantity times rate |
| OrderTotals.SumAmountsAppend | diwali_orders.py:216 | summing amounts distributes over concatenation |
| OrderTotals.SumAmountsNonNegative | diwali_orders.py:216 | a sum of non-negative amounts is non-negative |
| OrderTotals.LinesOfOrderAppend | diwali_orders.py:215 | selecting an order's lines distributes over concatenation |
| OrderTotals.StoredAmountsAreProducts | diwali_orders.py:216 | when every amount is quantity times rate, the amount sum equals the quantity-times-rate sum |
| OrderTotals.AmountInAddOrder | diwali_orders.py:248-250 | adding a new order id to a set adds exactly that order's total to the amount of the set's lines |
| OrderTotals.AmountInCoversAll | diwali_orders.py:248-250 | when every line's order is in the set, the set's amount is the sum of all line amounts |
| OrderTotals.WithStatusMembers | diwali_orders.py:239-240 | the status filter keeps exactly the orders of that status and is never longer than Orders |
| OrderTotals.WithStatusSnoc | diwali_orders.py:252-257 | step helper (the definition unfolded by one element, used by the loop and induction proofs): one more order of the given status extends the status filter by that order; otherwise the filter is unchanged |
| OrderTotals.ActivePendingSnoc | diwali_orders.py:252-255 | step helper (the definition unfolded by one element, used by the loop and induction proofs): one more Active order with pending payment extends the pending filter; otherwise the filter is unchanged |
| OrderTotals.SumOrderTotalsSnoc | diwali_orders.py:248-250 | step helper (the definition unfolded by one element, used by the loop and induction proofs): one more order adds its order total to the sum of totals |
| OrderTotals.SumOrderTotalsNonNegative | diwali_orders.py:248-250 | with no negative amount, a sum of order totals is non-negative |
| OrderTotals.TotalIsActivePlusCompleted | diwali_orders.py:248-257 | when every order is Active or Completed, the total amount is the Active amount plus the Completed amount |
| OrderTotals.PendingWithinActive | diwali_orders.py:252-255 | with no negative amount, the pending amount lies between 0 and the Active amount |
| OrderTotals.SumOrderTotalsIsAmountIn | diwali_orders.py:248-250 | with distinct order ids, the sum of the order totals is the amount of all lines whose order id is one of the orders' ids |
| OrderTotals.AmountInNoIds | diwali_orders.py:248-250 | no order id selects no amount |
| OrderTotals.TotalIsAllLineAmounts | diwali_orders.py:248-250 | with distinct order ids and every line belonging to an order, the dashboard's total amount is the sum of all line amounts, each counted once |
| OrderTotals.DashboardTallies | diwali_orders.py:243-257 | the tallies loop returns the total over all orders, the Active, Completed and Active-and-pending sums of order totals; total is Active plus Completed when no other status occurs, pending lies in [0, Active] for non-negative amounts, and total is the sum of all line amounts for distinct ids without orphan lines |
| Demand.GroupQuantities | diwali_orders.py:316 | an item is a key of the grouping exactly when a selected line names it, and looking an item up gives the summed quantity of its selected lines |
| Demand.ActiveIds | diwali_orders.py:315 | every Active order's id is in the Active ids, every id in it belongs to an Active order, and it is a subset of all order ids |
| Demand.Lookup | diwali_orders.py:319 | looking up an item present in the grouping gives its grouped quantity; an absent item reads as 0 |
| Demand.RequiredByItem | diwali_orders.py:315-316 | the required-by-item grouping has a key exactly for the items some Active order contains, and a lookup (0 when absent) is the item's Active demand |
| Demand.QuantityInSnoc | diwali_orders.py:316 | step helper (the definition unfolded by one element, used by the loop and induction proofs): one more line adds its quantity to its item's demand when its order is selected and changes nothing otherwise |
| Demand.InactiveLinesContributeNothing | diwali_orders.py:316 | when no selected order contains the item, its summed quantity is 0 |
| Demand.NoActiveLinesMeansNoDemand | diwali_orders.py:316-319 | an item no Active order contains is absent from the grouping and reads as 0 required |
| Demand.QuantityInRemove | diwali_orders.py:315-316 | taking one order id out of the selection takes exactly that order's quantity of the item out of the demand |
| Demand.ActiveIdsAfterCompleting | diwali_orders.py:315 | with distinct ids, marking an Active order Completed removes exactly its id from the Active ids |
| Demand.CompletingOrderRemovesItsDemand | diwali_orders.py:315-316 | completing an Active order lowers each item's required quantity by exactly that order's quantity of the item |
| Demand.StockAnalysis | diwali_orders.py:447-459 | one row per inventory item, in inventory order, with the item's stock, its Active demand, difference stock minus demand, and status Short exactly when the difference is negative; the shopping list is empty exactly when every item's stock covers its demand |
| Demand.ShoppingList | diwali_orders.py:467 | a row is on the shopping list exactly when it is a row of the analysis with status Short; the list is never longer than the analysis |
| Demand.ShoppingListAppend | diwali_orders.py:467 | the shopping list of two concatenated tables is the concatenation of their shopping lists |
| Demand.ShoppingListEmpty | diwali_orders.py:467-474 | the shopping list is empty exactly when no row is Short |
| Demand.AlertFor | diwali_orders.py:318-325 | an item gets a shortage alert exactly when stock is below demand (short by demand minus stock, which is positive), a low-surplus alert exactly when the surplus is in [0, 2), and no alert exactly when the surplus is at least 2 |
| Demand.AlertsOf | diwali_orders.py:318-325 | the alerts, in inventory order, are exactly the alerts of the items that have one; there are never more alerts than items |
| Demand.AlertsOfSnoc | diwali_orders.py:318-325 | step helper (the definition unfolded by one element, used by the loop and induction proofs): one more item appends its own alert, if it has one, and leaves the earlier alerts unchanged |
| Demand.AlertsOfAppend | diwali_orders.py:318-325 | the alerts keep Items order: the alerts of two concatenated item lists are the two alert lists concatenated |
| Demand.StockAlerts | diwali_orders.py:314-325 | the alerts loop, reading demand from the required-by-item grouping, yields exactly the alerts of the inventory items |
| ItemRanking.ItemNames | diwali_orders.py:297 | the group keys are distinct, and a name is a key exactly when some line names it |
| ItemRanking.SummariesOf | diwali_orders.py:297-300 | one summary per group key, carrying the key's summed quantity and summed amount |
| ItemRanking.Insert | diwali_orders.py:300 | inserting into a list sorted by descending quantity keeps it sorted, adds one entry and adds nothing else |
| ItemRanking.InsertIsPermutation | diwali_orders.py:300 | insertion adds exactly the new entry to the multiset of entries |
| ItemRanking.InsertKeepsNamesDistinct | diwali_orders.py:300 | inserting an entry with a new name keeps the names distinct |
| ItemRanking.SortByQuantity | diwali_orders.py:300 | the sort result is sorted by descending quantity, as long as its input, and holds the same entries |
| ItemRanking.SortIsPermutation | diwali_orders.py:300 | the sort result is a permutation of its input |
| ItemRanking.SortKeepsNamesDistinct | diwali_orders.py:300 | sorting keeps item names distinct |
| ItemRanking.TopItems | diwali_orders.py:297-300 | the top n: min(n, number of ordered items) entries with distinct names, sorted by descending quantity, each carrying its item's summed quantity and amount over all lines; every ordered item left out sold no more than any item kept |
| ItemRanking.TopFive | diwali_orders.py:297-300 | the dashboard table: at most five entries, min(5, number of ordered items) of them, with distinct names, sorted by descending quantity, carrying each item's summed quantity and amount; every ordered item left out sold no more than any item shown |
| ItemRanking.InsertKeepsSum | diwali_orders.py:300 | insertion adds exactly the new entry's quantity to the quantity sum |
| ItemRanking.SortKeepsSum | diwali_orders.py:300 | sorting keeps the quantity sum |
| ItemRanking.PrefixSumAtMostSum | diwali_orders.py:300 | with non-negative quantities, the first k entries sum to at most the whole list |
| ItemRanking.SumNonNegative | diwali_orders.py:297-300 | a sum of non-negative quantities is non-negative |
| ItemRanking.QuantityOfItemSnoc | diwali_orders.py:298 | step helper (the definition unfolded by one element, used by the loop and induction proofs): one more line adds its quantity to its own item only |
| ItemRanking.QuantityOfUnorderedItem | diwali_orders.py:298 | an item no line names has summed quantity 0 |
| ItemRanking.QuantityOfItemNonNegative | diwali_orders.py:298 | with non-negative quantities, every item's summed quantity is non-negative |
| ItemRanking.GroupsAfterOneMoreLine | diwali_orders.py:297-298 | one more line adds its quantity to the summed quantities of the groups exactly when its item is among them |
| ItemRanking.GroupsOfOneMoreName | diwali_orders.py:297-298 | one more group key adds exactly that item's quantity to the groups' quantity sum |
| ItemRanking.GroupsPartitionQuantity | diwali_orders.py:297-298 | the groups' quantities add up to the total quantity of all lines: each line is in exactly one group |
| ItemRanking.TopItemsWithinTotal | diwali_orders.py:297-300 | with non-negative quantities, the quantities shown in the top-n table add up to at most the total quantity ordered |
| ItemRanking.LineCountPositive | diwali_orders.py:483-487 | an item has a positive line count exactly when some line names it |
| ItemRanking.LineCount | diwali_orders.py:484 | the line count of an item never exceeds the number of lines |
| ItemRanking.LineCountIsNumberOfLines | diwali_orders.py:484 | the line count is the number of positions in the table holding a line of the item |
| ItemRanking.StatsOf | diwali_orders.py:483-504 | the item's statistics are absent exactly when no line names it; otherwise "Total Orders" is the item's line count (at least 1), and quantity and revenue are the item's summed quantity and amount |
| ItemRanking.TopItemsAgreeWithStats | diwali_orders.py:297-300 | every top item's figures equal its statistics row |
| ItemCustomers.ItemCustomers | diwali_orders.py:218-223 | an order is listed exactly when some line of that order names the item, in Orders order; the list is never longer than Orders |
| ItemCustomers.ItemCustomersSnoc | diwali_orders.py:222 | step helper (the definition unfolded by one element, used by the loop and induction proofs): one more order is appended to the item's customers exactly when it contains the item |
| ItemCustomers.ItemCustomersAppend | diwali_orders.py:222 | the customers keep Orders order: the customers of two concatenated order lists are the two lists concatenated |
| ItemCustomers.OrdersAtMostLines | diwali_orders.py:220 | an item's distinct order ids are at most its line count, hence at most the statistics' "Total Orders"; an item without statistics is in no order |
| ItemCustomers.OrderIdsAtMostLines | diwali_orders.py:220 | an item's distinct order ids are at most its line count |
| ItemCustomers.FirstOrderOf | diwali_orders.py:517 | the lookup by customer name finds nothing exactly when no order carries the name, and otherwise finds the first order carrying it |
| ItemCustomers.DetailAsWritten | diwali_orders.py:516-529 | a detail row carries the customer order's own name, delivery, status and payment, but the quantity of the item in the first order placed under that customer name |
| ItemCustomers.CustomerDetails | diwali_orders.py:515-529 | the detail loop yields one row per order containing the item, in order, each row as the page builds it |
| ItemCustomers.CorrectedDetails | diwali_orders.py:515-529 | one corrected row per customer order, each taking the quantity of the row's own order |
| ItemCustomers.CorrectedDetailsSnoc | diwali_orders.py:515-529 | step helper (the definition unfolded by one element, used by the loop and induction proofs): one more customer order adds its own quantity of the item to the rows' total |
| ItemCustomers.QuantityInAddId | diwali_orders.py:518-521 | adding a new order id to the selection adds exactly that order's quantity of the item |
| ItemCustomers.CorrectedDetailsSumOverOrders | diwali_orders.py:515-529 | with distinct ids, the corrected rows add up to the item's quantity over all the orders' ids |
| ItemCustomers.OrderWithoutTheItem | diwali_orders.py:518-521 | an order with no line of the item contributes quantity 0 |
| ItemCustomers.QuantityInCoversItem | diwali_orders.py:518-521 | when every line's order is selected, the selected quantity is the item's whole quantity |
| ItemCustomers.CorrectedDetailsAddUp | diwali_orders.py:515-529 | with distinct ids and no orphan lines, the corrected rows add up to the item's total quantity, each line counted once |
| ItemCustomers.DetailAsWrittenTakesFirstOrderOfTheName | diwali_orders.py:517 | two orders under one name: the row of the order holding 1 kg of the item shows 0 as written, 1 once corrected |
| Delivery.Classify | diwali_orders.py:340-353 | every day count gets exactly one label (overdue when negative, by minus the count; today at 0; tomorrow at 1; in d days beyond), and the day count can be read back from the label |
| Delivery.DaysLeft | diwali_orders.py:340 | the days left is the signed distance from today to the delivery day: today plus it is the delivery day, and it is negative exactly when the delivery day has passed |
| Delivery.TodaysDeliveries | diwali_orders.py:260-261 | today's deliveries are never more than the orders |
| Delivery.TodaysDeliveriesMembers | diwali_orders.py:261 | an order is among today's deliveries exactly when it is Active and its delivery day is today, and each is labelled "today" |
| Delivery.TodaysDeliveriesAppend | diwali_orders.py:261 | the deliveries keep Orders order: those of two concatenated order lists are the two lists concatenated |
| Delivery.TodaysDeliveriesOfOne | diwali_orders.py:261 | a single order appears once when Active and due today and not at all otherwise, so with the append lemma the metric counts each such order exactly once |
| Inventory.TotalStock | diwali_orders.py:431 | the total stock is non-negative when no item's stock is negative |
| Inventory.TotalValueNonNegative | diwali_orders.py:430 | the total inventory value is non-negative when no stored value is negative |
| Inventory.TotalValueIsWorthOfStock | diwali_orders.py:430 | when every stored value is rate times stock, the total inventory value is the worth of the stock at list rates |
| Scenarios.OneItemSnapshot | diwali_orders.py:214-325 | one Active half-kilogram order of an 8 kg item: total 200, demand 0.5, 7.5 kg to spare, no alert |
| Scenarios.TwoOrdersOverAskOneItem | diwali_orders.py:315-323 | two Active 1 kg orders against 1 kg of stock: demand 2 and a shortage of 1 |
| Scenarios.EmbeddedOrderTotal | diwali_orders.py:214-216 | order 7 of the embedded data totals 480 from its two stored amounts, ignoring order 1's line |
| Scenarios.EmbeddedDemand | diwali_orders.py:297-316 | a Completed and an Active order share an item: demand counts only the Active 0.5 kg, the top-items figure counts both lines (0.75 kg) |

## Left out

- Streamlit rendering, the sidebar, page navigation, charts and number formatting are not modelled. This page has no order form: its Edit button only shows a message (lines 368-369) and the sidebar says to edit the embedded data and redeploy (line 551). Nor are the embedded CSV text, its parsing, date parsing, or the data cache.
- The clock is not modelled. `date.today()` is the parameter `today`, and dates are day numbers.
- Floating point is not modelled. Quantities and amounts are exact reals, so rounding in pandas sums is not captured.
- The phone, address, notes and order-date columns, and the expander content of each order, are not modelled.
- The All-Orders tab sorts Active orders by delivery date (line 334). That sort is not modelled. Each order's label depends only on its own date, which `Delivery.Classify` captures.
- The item statistics' table is sorted by line count (lines 483-487). That sort is not modelled: the lookup by item name does not depend on it.
- The breakdown of the customer table into Active and Completed counts (lines 535-536) is not modelled. It is a status filter like `OrderTotals.WithStatus`.
- ItemRanking.TopItems: pandas groups keys in name order and sorts them with an unstable quicksort, so the order among items with equal quantity is unspecified. The model groups in first-appearance order and sorts stably, and no property fixes the order among ties. The order among ties also decides which of several items with equal quantity fills the last shown places (the fifth, for the dashboard); the contract allows any choice, since it only says a left-out item sold no more than any item kept.
- OrderTotals.OrderTotal: the total sums the stored `Amount` column, as the code does. It does not sum quantity × rate. The two agree when every stored amount is the product, which `OrderTotals.OrderTotalIsQuantityTimesRate` proves.
- Demand.AlertFor: the low-surplus margin is the code's constant 2 kg (`Demand.LowSurplusMargin`). It is not a configurable buffer, and no replenishment quantity is suggested, because this page computes none. The stock-analysis page's shopping list holds only the hard shortages (difference below 0).
- ItemRanking.StatsOf: "Total Orders" counts the item's order lines, since the code counts `Order_ID` values rather than distinct orders. `ItemCustomers.OrdersAtMostLines` relates the two.

## Findings

| source | as written | input that shows it | evidently intended | confidence | as-written member | corrected member |
|---|---|---|---|---|---|---|
| diwali_orders.py:517 | each customer row finds its order again by customer name and takes the first order with that name | orders 1 (Completed) and 2 (Active) both under "Bhonde", only order 2 has 1 kg of Chakli: the Chakli row of order 2 shows 0 kg | each row shows the item quantity of its own order, so the rows add up to the item's total quantity | not executed | ItemCustomers.DetailAsWrittenTakesFirstOrderOfTheName | ItemCustomers.CorrectedDetailsAddUp |
