/**
 * The aggregation of the storefront report (shopify_report_main.py,
 * `calculate_revenue_and_sales_breakdown`): total revenue over all orders and
 * the quantity sold per product title, as rows sorted by quantity descending.
 * Money is in cents.
 */
module ShopifyReport {
  import opened Wrappers

  datatype LineItem = LineItem(title: string, quantity: nat)

  datatype Order = Order(totalPrice: int, lineItems: seq<LineItem>)

  /** A row of the breakdown table: columns "Product" and "Quantity Sold". */
  datatype Row = Row(product: string, quantitySold: nat)

  /** The dictionary `{'total_revenue': ..., 'breakdown_df': ...}`. */
  datatype Summary = Summary(totalRevenue: int, breakdown: seq<Row>)

  /**
   * What the function returns: the pair `(0, pd.DataFrame())` for no orders,
   * or the keyed summary.
   */
  datatype SalesResult = Bare(revenue: int) | Keyed(summary: Summary)

  /** Indexing a tuple with a string key raises TypeError. */
  datatype Error = TypeError

  // ---------------------------------------------------------------------
  // What the orders contain
  // ---------------------------------------------------------------------

  /** The sum of the orders' total prices. */
  function Revenue(orders: seq<Order>): int {
    if orders == [] then 0 else Revenue(orders[..|orders| - 1]) + orders[|orders| - 1].totalPrice
  }

  /** All line items of all orders, order by order. */
  function Items(orders: seq<Order>): seq<LineItem> {
    if orders == [] then [] else Items(orders[..|orders| - 1]) + orders[|orders| - 1].lineItems
  }

  /** The quantities of the line items titled `title`, summed. */
  function Sold(items: seq<LineItem>, title: string): nat {
    if items == [] then 0
    else Sold(items[..|items| - 1], title) + (if items[|items| - 1].title == title then items[|items| - 1].quantity else 0)
  }

  /** The quantities of all line items, summed. */
  function TotalSold(items: seq<LineItem>): nat {
    if items == [] then 0 else TotalSold(items[..|items| - 1]) + items[|items| - 1].quantity
  }

  function Titles(items: seq<LineItem>): set<string> {
    set item | item in items :: item.title
  }

  // ---------------------------------------------------------------------
  // Breakdown rows
  // ---------------------------------------------------------------------

  function ProductsOf(rows: seq<Row>): set<string> {
    set row | row in rows :: row.product
  }

  predicate DistinctProducts(rows: seq<Row>) {
    forall i, j | 0 <= i < j < |rows| :: rows[i].product != rows[j].product
  }

  predicate SortedBySold(rows: seq<Row>) {
    forall i, j | 0 <= i < j < |rows| :: rows[i].quantitySold >= rows[j].quantitySold
  }

  function SumSold(rows: seq<Row>): nat {
    if rows == [] then 0 else rows[0].quantitySold + SumSold(rows[1..])
  }

  lemma {:induction false} SumSoldAppend(a: seq<Row>, b: seq<Row>)
    ensures SumSold(a + b) == SumSold(a) + SumSold(b)
  {
    if a == [] {
      assert a + b == b;
    } else {
      assert (a + b)[1..] == a[1..] + b;
      SumSoldAppend(a[1..], b);
    }
  }

  /**
   * What a summary of `orders` must be: the revenue is the sum of the order
   * totals; the rows name every title seen exactly once and no other; each
   * row's quantity is the sum over the line items with that exact title; the
   * quantities add up to all line items' quantities; and the rows run from
   * the largest quantity to the smallest.
   */
  ghost predicate Summarizes(s: Summary, orders: seq<Order>) {
    var items := Items(orders);
    && s.totalRevenue == Revenue(orders)
    && ProductsOf(s.breakdown) == Titles(items)
    && DistinctProducts(s.breakdown)
    && (forall row | row in s.breakdown :: row.quantitySold == Sold(items, row.product))
    && SumSold(s.breakdown) == TotalSold(items)
    && SortedBySold(s.breakdown)
  }

  // ---------------------------------------------------------------------
  // The running dictionary
  // ---------------------------------------------------------------------

  /**
   * `list(sales_breakdown.items())`: the dictionary's entries in the order its
   * keys were first inserted, `titles` holding that order.
   */
  function Entries(titles: seq<string>, sold: map<string, nat>): (rows: seq<Row>)
    requires forall t | t in titles :: t in sold
    ensures |rows| == |titles|
  {
    if titles == [] then []
    else Entries(titles[..|titles| - 1], sold) + [Row(titles[|titles| - 1], sold[titles[|titles| - 1]])]
  }

  /**
   * The loop's invariant: after the line items `items`, the dictionary holds
   * each title seen once, in insertion order `titles`, with the quantity sold
   * so far, and its values add up to the quantity of all items seen.
   */
  ghost predicate Tallies(titles: seq<string>, sold: map<string, nat>, items: seq<LineItem>) {
    && (forall i, j | 0 <= i < j < |titles| :: titles[i] != titles[j])
    && (forall t | t in titles :: t in sold)
    && (forall t | t in sold :: t in titles)
    && sold.Keys == Titles(items)
    && (forall t | t in sold :: sold[t] == Sold(items, t))
    && SumSold(Entries(titles, sold)) == TotalSold(items)
  }

  /** Entry `i` is the `i`-th key inserted, with its value. */
  lemma {:induction false} EntryAt(titles: seq<string>, sold: map<string, nat>, i: nat)
    requires forall t | t in titles :: t in sold
    requires i < |titles|
    ensures Entries(titles, sold)[i] == Row(titles[i], sold[titles[i]])
  {
    if i < |titles| - 1 {
      EntryAt(titles[..|titles| - 1], sold, i);
    }
  }

  /**
   * The entries of a dictionary whose keys are exactly `titles`, each once:
   * one row per key, no key twice, each with its value.
   */
  lemma EntriesFacts(titles: seq<string>, sold: map<string, nat>)
    requires forall i, j | 0 <= i < j < |titles| :: titles[i] != titles[j]
    requires forall t | t in titles :: t in sold
    requires forall t | t in sold :: t in titles
    ensures ProductsOf(Entries(titles, sold)) == sold.Keys
    ensures DistinctProducts(Entries(titles, sold))
    ensures forall row | row in Entries(titles, sold) :: row.product in sold && row.quantitySold == sold[row.product]
  {
    var rows := Entries(titles, sold);
    forall i | 0 <= i < |rows| ensures rows[i] == Row(titles[i], sold[titles[i]]) {
      EntryAt(titles, sold, i);
    }
    forall u | u in sold ensures u in ProductsOf(rows) {
      var k :| 0 <= k < |titles| && titles[k] == u;
      assert rows[k].product == u;
    }
  }

  /** Changing the value of a key that is not listed leaves the entries alone. */
  lemma {:induction false} EntriesFrame(titles: seq<string>, sold: map<string, nat>, t: string, v: nat)
    requires forall u | u in titles :: u in sold
    requires t !in titles
    ensures Entries(titles, sold[t := v]) == Entries(titles, sold)
  {
    if titles != [] {
      EntriesFrame(titles[..|titles| - 1], sold, t, v);
    }
  }

  /** A new key appended with value `q` adds `q` to the sum of the entries. */
  lemma EntriesAppendNew(titles: seq<string>, sold: map<string, nat>, t: string, q: nat)
    requires forall u | u in titles :: u in sold
    requires t !in titles
    ensures SumSold(Entries(titles + [t], sold[t := q])) == SumSold(Entries(titles, sold)) + q
  {
    var titles' := titles + [t];
    var sold' := sold[t := q];
    assert titles'[..|titles'| - 1] == titles;
    assert Entries(titles', sold') == Entries(titles, sold') + [Row(t, q)];
    EntriesFrame(titles, sold, t, q);
    SumSoldAppend(Entries(titles, sold'), [Row(t, q)]);
  }

  /** Adding `q` to one listed key adds `q` to the sum of the entries. */
  lemma {:induction false} EntriesBump(titles: seq<string>, sold: map<string, nat>, t: string, q: nat)
    requires forall i, j | 0 <= i < j < |titles| :: titles[i] != titles[j]
    requires forall u | u in titles :: u in sold
    requires t in titles
    ensures SumSold(Entries(titles, sold[t := sold[t] + q])) == SumSold(Entries(titles, sold)) + q
  {
    var n := |titles|;
    var init, last := titles[..n - 1], titles[n - 1];
    var bumped := sold[t := sold[t] + q];
    assert Entries(titles, bumped) == Entries(init, bumped) + [Row(last, bumped[last])];
    assert Entries(titles, sold) == Entries(init, sold) + [Row(last, sold[last])];
    SumSoldAppend(Entries(init, bumped), [Row(last, bumped[last])]);
    SumSoldAppend(Entries(init, sold), [Row(last, sold[last])]);
    if last == t {
      assert t !in init by {
        forall i | 0 <= i < n - 1 ensures init[i] != t {
          assert titles[i] != titles[n - 1];
        }
      }
      EntriesFrame(init, sold, t, sold[t] + q);
    } else {
      assert t in init by {
        assert titles == init + [last];
      }
      EntriesBump(init, sold, t, q);
    }
  }

  /** One more line item adds its title. */
  lemma TitlesSnoc(items: seq<LineItem>, item: LineItem)
    ensures Titles(items + [item]) == Titles(items) + {item.title}
  {
    var items' := items + [item];
    forall u | u in Titles(items') ensures u in Titles(items) + {item.title} {
      var it :| it in items' && it.title == u;
      if it != item {
        assert it in items;
      }
    }
  }

  /** One more line item adds its quantity to the total. */
  lemma TotalSoldSnoc(items: seq<LineItem>, item: LineItem)
    ensures TotalSold(items + [item]) == TotalSold(items) + item.quantity
  {
    assert (items + [item])[..|items|] == items;
  }

  /** One more line item adds its quantity to the count of its own title only. */
  lemma SoldSnoc(items: seq<LineItem>, item: LineItem, t: string)
    ensures Sold(items + [item], t) == Sold(items, t) + (if t == item.title then item.quantity else 0)
  {
    assert (items + [item])[..|items|] == items;
  }

  /** Counting an item under a key already present keeps every count exact. */
  lemma CountsBump(sold: map<string, nat>, items: seq<LineItem>, item: LineItem)
    requires item.title in sold
    requires forall t | t in sold :: sold[t] == Sold(items, t)
    ensures var sold' := sold[item.title := sold[item.title] + item.quantity];
      forall t | t in sold' :: sold'[t] == Sold(items + [item], t)
  {
    var sold' := sold[item.title := sold[item.title] + item.quantity];
    forall t | t in sold' ensures sold'[t] == Sold(items + [item], t) {
      SoldSnoc(items, item, t);
    }
  }

  /** Counting an item under a new key keeps every count exact. */
  lemma CountsAdd(sold: map<string, nat>, items: seq<LineItem>, item: LineItem)
    requires item.title !in Titles(items)
    requires forall t | t in sold :: sold[t] == Sold(items, t)
    ensures var sold' := sold[item.title := item.quantity];
      forall t | t in sold' :: sold'[t] == Sold(items + [item], t)
  {
    var sold' := sold[item.title := item.quantity];
    forall t | t in sold' ensures sold'[t] == Sold(items + [item], t) {
      SoldSnoc(items, item, t);
      if t == item.title {
        SoldWithoutTitle(items, t);
      }
    }
  }

  /** Counting an item whose title is already a key keeps the invariant. */
  lemma TallyBump(titles: seq<string>, sold: map<string, nat>, items: seq<LineItem>, item: LineItem)
    requires Tallies(titles, sold, items) && item.title in sold
    ensures Tallies(titles, sold[item.title := sold[item.title] + item.quantity], items + [item])
  {
    var sold' := sold[item.title := sold[item.title] + item.quantity];
    var items' := items + [item];
    assert sold'.Keys == sold.Keys;
    assert sold'.Keys == Titles(items') by {
      TitlesSnoc(items, item);
    }
    CountsBump(sold, items, item);
    assert item.title in titles;
    SumAfterBump(titles, sold, items, item);
  }

  /** The entries' sum keeps up with the items' total when a listed title grows. */
  lemma SumAfterBump(titles: seq<string>, sold: map<string, nat>, items: seq<LineItem>, item: LineItem)
    requires forall i, j | 0 <= i < j < |titles| :: titles[i] != titles[j]
    requires forall u | u in titles :: u in sold
    requires item.title in titles
    requires SumSold(Entries(titles, sold)) == TotalSold(items)
    ensures SumSold(Entries(titles, sold[item.title := sold[item.title] + item.quantity])) == TotalSold(items + [item])
  {
    TotalSoldSnoc(items, item);
    EntriesBump(titles, sold, item.title, item.quantity);
  }

  /** Counting an item with a new title appends the title and keeps the invariant. */
  lemma TallyAdd(titles: seq<string>, sold: map<string, nat>, items: seq<LineItem>, item: LineItem)
    requires Tallies(titles, sold, items) && item.title !in sold
    ensures Tallies(titles + [item.title], sold[item.title := item.quantity], items + [item])
  {
    var titles' := titles + [item.title];
    var sold' := sold[item.title := item.quantity];
    var items' := items + [item];
    assert sold'.Keys == Titles(items') by {
      TitlesSnoc(items, item);
    }
    CountsAdd(sold, items, item);
    SumAfterAdd(titles, sold, items, item);
  }

  /** The entries' sum keeps up with the items' total when a new title is appended. */
  lemma SumAfterAdd(titles: seq<string>, sold: map<string, nat>, items: seq<LineItem>, item: LineItem)
    requires forall u | u in titles :: u in sold
    requires item.title !in titles
    requires SumSold(Entries(titles, sold)) == TotalSold(items)
    ensures SumSold(Entries(titles + [item.title], sold[item.title := item.quantity])) == TotalSold(items + [item])
  {
    TotalSoldSnoc(items, item);
    EntriesAppendNew(titles, sold, item.title, item.quantity);
  }

  /** A title no item carries has sold nothing. */
  lemma {:induction false} SoldWithoutTitle(items: seq<LineItem>, title: string)
    requires title !in Titles(items)
    ensures Sold(items, title) == 0
  {
    if items != [] {
      var init := items[..|items| - 1];
      assert Titles(init) <= Titles(items);
      SoldWithoutTitle(init, title);
    }
  }

  // ---------------------------------------------------------------------
  // Sorting by quantity, descending
  // ---------------------------------------------------------------------

  /** A row at least as large as every row of a sorted table can go in front of it. */
  lemma SortedCons(head: Row, rows: seq<Row>)
    requires SortedBySold(rows)
    requires forall e | e in rows :: e.quantitySold <= head.quantitySold
    ensures SortedBySold([head] + rows)
  {
    var r := [head] + rows;
    forall i, j | 0 <= i < j < |r| ensures r[i].quantitySold >= r[j].quantitySold {
      assert r[j] == rows[j - 1];
      if i > 0 {
        assert r[i] == rows[i - 1];
      }
    }
  }

  /** The tail of a sorted table is sorted, and its head is a largest row. */
  lemma SortedTail(rows: seq<Row>)
    requires SortedBySold(rows) && rows != []
    ensures SortedBySold(rows[1..])
    ensures forall e | e in rows :: e.quantitySold <= rows[0].quantitySold
  {
    forall e | e in rows ensures e.quantitySold <= rows[0].quantitySold {
      var k :| 0 <= k < |rows| && rows[k] == e;
      assert k == 0 || rows[0].quantitySold >= rows[k].quantitySold;
    }
  }

  /** A row whose product is new can go in front of a table without repeated products. */
  lemma DistinctCons(head: Row, rows: seq<Row>)
    requires DistinctProducts(rows) && head.product !in ProductsOf(rows)
    ensures DistinctProducts([head] + rows)
  {
    var r := [head] + rows;
    forall i, j | 0 <= i < j < |r| ensures r[i].product != r[j].product {
      assert r[j] == rows[j - 1];
      if i > 0 {
        assert r[i] == rows[i - 1];
      } else {
        assert rows[j - 1] in rows;
      }
    }
  }

  /** The tail of a table without repeated products has none, and lacks the head's product. */
  lemma DistinctTail(rows: seq<Row>)
    requires rows != []
    ensures DistinctProducts(rows) ==>
      DistinctProducts(rows[1..]) && rows[0].product !in ProductsOf(rows[1..])
  {
    if DistinctProducts(rows) {
      assert DistinctProducts(rows[1..]) by {
        forall i, j | 0 <= i < j < |rows[1..]| ensures rows[1..][i].product != rows[1..][j].product {
          assert rows[1..][i] == rows[i + 1] && rows[1..][j] == rows[j + 1];
        }
      }
      forall row | row in rows[1..] ensures row.product != rows[0].product {
        var k :| 0 <= k < |rows[1..]| && rows[1..][k] == row;
        assert rows[k + 1] == row;
      }
    }
  }

  lemma NoProductsNoRows(rows: seq<Row>)
    ensures ProductsOf(rows) == {} <==> rows == []
  {
    if rows != [] {
      assert rows[0].product in ProductsOf(rows);
    }
  }

  /** Tables with the same rows, in whatever order, name the same products. */
  lemma ProductsOfPermutation(a: seq<Row>, b: seq<Row>)
    requires multiset(a) == multiset(b)
    ensures ProductsOf(a) == ProductsOf(b)
  {
    forall p | p in ProductsOf(a) ensures p in ProductsOf(b) {
      var row :| row in a && row.product == p;
      assert row in multiset(b);
    }
    forall p | p in ProductsOf(b) ensures p in ProductsOf(a) {
      var row :| row in b && row.product == p;
      assert row in multiset(a);
    }
  }

  /** What goes behind the head of a sorted table when `x` is smaller than the head. */
  lemma BoundedByHead(x: Row, rows: seq<Row>, rest: seq<Row>)
    requires rows != [] && SortedBySold(rows)
    requires x.quantitySold < rows[0].quantitySold
    requires multiset(rest) == multiset(rows[1..]) + multiset{x}
    ensures forall e | e in rest :: e.quantitySold <= rows[0].quantitySold
  {
    forall e | e in rest ensures e.quantitySold <= rows[0].quantitySold {
      assert e in multiset(rest);
      if e != x {
        var k :| 0 <= k < |rows[1..]| && rows[1..][k] == e;
        assert rows[k + 1] == e;
      }
    }
  }

  /** Places `x` before the first row whose quantity does not exceed its own. */
  function InsertBySold(x: Row, rows: seq<Row>): (r: seq<Row>)
    ensures multiset(r) == multiset(rows) + multiset{x}
  {
    if rows == [] then [x]
    else if rows[0].quantitySold <= x.quantitySold then [x] + rows
    else
      assert rows == [rows[0]] + rows[1..];
      [rows[0]] + InsertBySold(x, rows[1..])
  }

  /** Inserting into a table sorted by quantity keeps it sorted. */
  lemma {:induction false} InsertSorted(x: Row, rows: seq<Row>)
    requires SortedBySold(rows)
    ensures SortedBySold(InsertBySold(x, rows))
  {
    if rows != [] {
      SortedTail(rows);
      if rows[0].quantitySold <= x.quantitySold {
        SortedCons(x, rows);
      } else {
        var rest := InsertBySold(x, rows[1..]);
        InsertSorted(x, rows[1..]);
        BoundedByHead(x, rows, rest);
        SortedCons(rows[0], rest);
      }
    }
  }

  /** Inserting adds one product and one row's quantity. */
  lemma {:induction false} InsertSums(x: Row, rows: seq<Row>)
    ensures ProductsOf(InsertBySold(x, rows)) == ProductsOf(rows) + {x.product}
    ensures SumSold(InsertBySold(x, rows)) == SumSold(rows) + x.quantitySold
  {
    ProductsOfPermutation(InsertBySold(x, rows), rows + [x]);
    assert ProductsOf(rows + [x]) == ProductsOf(rows) + {x.product};
    if rows != [] && rows[0].quantitySold > x.quantitySold {
      InsertSums(x, rows[1..]);
    }
  }

  /** Inserting a row with a new product repeats no product. */
  lemma {:induction false} InsertDistinct(x: Row, rows: seq<Row>)
    requires DistinctProducts(rows) && x.product !in ProductsOf(rows)
    ensures DistinctProducts(InsertBySold(x, rows))
  {
    if rows == [] {
    } else if rows[0].quantitySold <= x.quantitySold {
      DistinctCons(x, rows);
    } else {
      var rest := InsertBySold(x, rows[1..]);
      assert rows == [rows[0]] + rows[1..];
      assert ProductsOf(rows) == {rows[0].product} + ProductsOf(rows[1..]);
      DistinctTail(rows);
      InsertDistinct(x, rows[1..]);
      InsertSums(x, rows[1..]);
      DistinctCons(rows[0], rest);
    }
  }

  /**
   * `sort_values(by="Quantity Sold", ascending=False)`: the rows by quantity
   * from largest to smallest. pandas does not promise an order among equal
   * quantities, and neither does this contract.
   */
  function SortBySold(rows: seq<Row>): (r: seq<Row>)
    ensures SortedBySold(r)
    ensures multiset(r) == multiset(rows)
  {
    if rows == [] then []
    else
      var sortedRest := SortBySold(rows[1..]);
      assert rows == [rows[0]] + rows[1..];
      InsertSorted(rows[0], sortedRest);
      InsertBySold(rows[0], sortedRest)
  }

  /**
   * Sorting keeps the products, the total quantity, and the absence of
   * repeated products.
   */
  lemma {:induction false} SortFacts(rows: seq<Row>)
    ensures ProductsOf(SortBySold(rows)) == ProductsOf(rows)
    ensures SumSold(SortBySold(rows)) == SumSold(rows)
    ensures DistinctProducts(rows) ==> DistinctProducts(SortBySold(rows))
  {
    ProductsOfPermutation(SortBySold(rows), rows);
    if rows != [] {
      var sortedRest := SortBySold(rows[1..]);
      SortFacts(rows[1..]);
      InsertSums(rows[0], sortedRest);
      DistinctTail(rows);
      if DistinctProducts(rows) {
        InsertDistinct(rows[0], sortedRest);
      }
    }
  }

  // ---------------------------------------------------------------------
  // calculate_revenue_and_sales_breakdown
  // ---------------------------------------------------------------------

  /**
   * The loops of `calculate_revenue_and_sales_breakdown` and the sorted
   * table: revenue accumulated order by order, quantities accumulated per
   * title in a dictionary.
   */
  method SalesBreakdown(orders: seq<Order>) returns (s: Summary)
    ensures Summarizes(s, orders)
  {
    var totalRevenue := 0;
    var titles: seq<string> := [];
    var sold: map<string, nat> := map[];
    for i := 0 to |orders|
      invariant totalRevenue == Revenue(orders[..i])
      invariant Tallies(titles, sold, Items(orders[..i]))
    {
      OrdersPrefix(orders, i + 1);
      totalRevenue := totalRevenue + orders[i].totalPrice;
      titles, sold := CountOrder(titles, sold, Items(orders[..i]), orders[i].lineItems);
    }
    OrdersPrefix(orders, |orders|);
    SummaryFromTallies(titles, sold, Items(orders));
    s := Summary(totalRevenue, SortBySold(Entries(titles, sold)));
  }

  /** How revenue and line items grow with the orders counted so far. */
  lemma OrdersPrefix(orders: seq<Order>, i: nat)
    requires i <= |orders|
    ensures 0 < i ==> Revenue(orders[..i]) == Revenue(orders[..i - 1]) + orders[i - 1].totalPrice
    ensures 0 < i ==> Items(orders[..i]) == Items(orders[..i - 1]) + orders[i - 1].lineItems
    ensures i == |orders| ==> orders[..i] == orders
  {
    if 0 < i {
      assert orders[..i][..i - 1] == orders[..i - 1];
    }
  }

  /** The inner loop: every line item of one order counted into the dictionary. */
  method CountOrder(titles: seq<string>, sold: map<string, nat>, ghost seen: seq<LineItem>, lineItems: seq<LineItem>)
    returns (titles': seq<string>, sold': map<string, nat>)
    requires Tallies(titles, sold, seen)
    ensures Tallies(titles', sold', seen + lineItems)
  {
    titles', sold' := titles, sold;
    PrefixFacts(seen, lineItems, 0);
    for j := 0 to |lineItems|
      invariant Tallies(titles', sold', seen + lineItems[..j])
    {
      PrefixFacts(seen, lineItems, j + 1);
      titles', sold' := CountItem(titles', sold', seen + lineItems[..j], lineItems[j]);
    }
    PrefixFacts(seen, lineItems, |lineItems|);
  }

  /** How `seen + xs[..j]` grows with `j`. */
  lemma PrefixFacts(seen: seq<LineItem>, xs: seq<LineItem>, j: nat)
    requires j <= |xs|
    ensures j == 0 ==> seen + xs[..j] == seen
    ensures j == |xs| ==> seen + xs[..j] == seen + xs
    ensures 0 < j ==> seen + xs[..j] == seen + xs[..j - 1] + [xs[j - 1]]
  {
    if 0 < j {
      assert xs[..j] == xs[..j - 1] + [xs[j - 1]];
    }
  }

  /**
   * One line item: its quantity is added to the title's running total, and
   * a title seen for the first time becomes a new key at the end.
   */
  method CountItem(titles: seq<string>, sold: map<string, nat>, ghost items: seq<LineItem>, item: LineItem)
    returns (titles': seq<string>, sold': map<string, nat>)
    requires Tallies(titles, sold, items)
    ensures Tallies(titles', sold', items + [item])
    ensures item.title in sold ==> titles' == titles && sold'[item.title] == sold[item.title] + item.quantity
    ensures item.title !in sold ==> titles' == titles + [item.title] && sold'[item.title] == item.quantity
  {
    if item.title in sold {
      TallyBump(titles, sold, items, item);
      titles', sold' := titles, sold[item.title := sold[item.title] + item.quantity];
    } else {
      TallyAdd(titles, sold, items, item);
      titles', sold' := titles + [item.title], sold[item.title := item.quantity];
    }
  }

  /** Each sorted entry carries the quantity sold under its product. */
  lemma SortedEntriesCounts(titles: seq<string>, sold: map<string, nat>, items: seq<LineItem>)
    requires forall i, j | 0 <= i < j < |titles| :: titles[i] != titles[j]
    requires forall t | t in titles :: t in sold
    requires forall t | t in sold :: t in titles
    requires forall t | t in sold :: sold[t] == Sold(items, t)
    ensures forall row | row in SortBySold(Entries(titles, sold)) :: row.quantitySold == Sold(items, row.product)
  {
    var rows := Entries(titles, sold);
    EntriesFacts(titles, sold);
    forall row | row in SortBySold(rows) ensures row.quantitySold == Sold(items, row.product) {
      assert row in multiset(SortBySold(rows));
    }
  }

  /** The dictionary's entries, sorted, are the breakdown a summary needs. */
  lemma SummaryFromTallies(titles: seq<string>, sold: map<string, nat>, items: seq<LineItem>)
    requires Tallies(titles, sold, items)
    ensures var sorted := SortBySold(Entries(titles, sold));
      && ProductsOf(sorted) == Titles(items)
      && DistinctProducts(sorted)
      && (forall row | row in sorted :: row.quantitySold == Sold(items, row.product))
      && SumSold(sorted) == TotalSold(items)
      && SortedBySold(sorted)
  {
    EntriesFacts(titles, sold);
    SortFacts(Entries(titles, sold));
    SortedEntriesCounts(titles, sold, items);
  }

  method CalculateRevenueAndSalesBreakdown(orders: seq<Order>) returns (r: SalesResult)
    ensures orders == [] ==> r == Bare(0)
    ensures orders != [] ==> r.Keyed? && Summarizes(r.summary, orders)
  {
    if orders == [] {
      return Bare(0);
    }
    var s := SalesBreakdown(orders);
    r := Keyed(s);
  }

  /** The report reads `result['total_revenue']` and `result['breakdown_df']` (lines 117-118). */
  function ReadSummary(r: SalesResult): (s: Result<Summary, Error>)
    ensures s.Ok? <==> r.Keyed?
    ensures s.Ok? ==> s.value == r.summary
  {
    match r
    case Bare(_) => Err(TypeError)
    case Keyed(s) => Ok(s)
  }

  /**
   * For no orders the source's pair cannot be read by the report, while the
   * summary of no orders is the zero revenue with an empty breakdown, which
   * it can read.
   */
  lemma EmptyOrders(s: Summary)
    requires Summarizes(s, [])
    ensures ReadSummary(Bare(0)) == Err(TypeError)
    ensures s == Summary(0, []) && ReadSummary(Keyed(s)) == Ok(s)
  {
    NoProductsNoRows(s.breakdown);
  }
}
