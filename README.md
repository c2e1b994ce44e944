# Weekly report aggregation, modelled in Dafny

This project models the arithmetic core of the weekly sales reports:

- **Ticketing transactions** (`vivenu_report_main.py`). Premium and reserved deposits are counted by the ticket type of each transaction's first ticket. Ticket purchases are the sum of ticket-list lengths. The all-time totals cover COMPLETE transactions only. The summary of the last `days` days has revenue, a completion ratio, premium/reserved counts and purchases.
- **Storefront orders** (`shopify_report_main.py`). Total revenue is folded over the orders. Quantities sold are accumulated per product title in a dictionary. The dictionary then becomes a table sorted by quantity, descending.
- **`fmt_money`**: `"$"`, the amount with comma thousands separators and two decimals, or `str(x)` when the value is not a number.

Modules:

- `Wrappers`: `Option` and `Result`.
- `Decimal`: decimal numerals, two-digit fractions and the `,` thousands grouping, each with a reading-back function.
- `Money`: `fmt_money` over integer cents, with the parser `ParseMoney` as its inverse.
- `VivenuReport`: the transaction table, the classification, the counts, the all-time totals and the window summary.
- `ShopifyReport`: the order fold, the running dictionary and the sort.

Representation choices:

- Money is in integer cents and times are in integer seconds.
- A pandas DataFrame is `Table(columns, rows)`. Reading a column the table lacks is a `KeyError`, as in pandas.
- A tickets cell that is not a list is `None`. A `createdAt` that `pd.to_datetime(..., errors="coerce")` cannot parse (NaT) is `None`, and it is never inside the window.
- The clock is the parameter `now`. The API response is the table parameter.
- The per-title dictionary is a `map` plus the sequence of its keys in insertion order, which is the order `list(sales_breakdown.items())` yields.

The completion ratio is truncated, not rounded: `vivenu_report_main.py:116` applies `int(...)`, and `CompletionRatio` is the floor of `100 * completed / (completed + canceled)`.

## Model

| member | source | states |
|---|---|---|
| VivenuReport.Classify | vivenu_report_main.py:53-60 | A transaction is premium or reserved only if its tickets cell is a non-empty list |
| VivenuReport.ClassifyByFirstTicket | vivenu_report_main.py:56 | Only the first ticket's type id decides the bucket; later tickets never change it |
| VivenuReport.PremiumReserved | vivenu_report_main.py:49-61 | (0, 0) without a `tickets` column; premium plus reserved never exceeds the rows that have a non-empty ticket list |
| VivenuReport.PremiumReservedAddsRow | vivenu_report_main.py:52-60 | One more row adds exactly 1 to premium for the premium id on its first ticket, exactly 1 to reserved for the reserved id, and nothing for any other id, an empty list or a non-list |
| VivenuReport.CountPremiumReserved | vivenu_report_main.py:41-62 | The loop computes exactly `PremiumReserved`: (0, 0) without a `tickets` column; otherwise it returns the number of rows whose first ticket has the premium id and the number with the reserved id; premium + reserved is at most the rows with a non-empty list |
| VivenuReport.ClassifiedAtMostListed | vivenu_report_main.py:52-61 | Premium + reserved <= rows with a non-empty ticket list <= all rows |
| VivenuReport.NumberOrders | vivenu_report_main.py:64-66 | KeyError exactly when the `tickets` column is missing; otherwise the sum of list lengths, non-lists counting 0, which is at least the number of rows with a non-empty list |
| VivenuReport.ListedAtMostTickets | vivenu_report_main.py:65 | Every row with a non-empty list contributes at least one purchase |
| VivenuReport.WithStatus | vivenu_report_main.py:78 | The status filter keeps only rows with that status, drawn from the input |
| VivenuReport.WithStatusKeeps | vivenu_report_main.py:78 | The filter keeps every row with the status, and is empty when no row has it |
| VivenuReport.WithStatusCount | vivenu_report_main.py:78 | The filter keeps every copy of a row with the status and no copy of any other row |
| VivenuReport.WithStatusLength | vivenu_report_main.py:112-113 | The filtered table has as many rows as the input has rows with that status |
| VivenuReport.AllTimeTotals | vivenu_report_main.py:71-88 | KeyError on `status` whenever that column is missing. When a COMPLETE row exists, KeyError on `realPrice`, then on `tickets`, if missing. Otherwise the totals come back, premium + reserved <= ticket purchases |
| VivenuReport.AllTimeZeroWithoutComplete | vivenu_report_main.py:78-81 | With a `status` column and no COMPLETE row the totals are (0, 0, 0, 0) |
| VivenuReport.AllTimeIgnoresOtherStatus | vivenu_report_main.py:78 | Inserting a row that is not COMPLETE anywhere changes none of the totals |
| VivenuReport.AllTimeAddsCompleteRow | vivenu_report_main.py:78-88 | With all columns present, one more COMPLETE row adds its price to revenue and its ticket count to purchases. It adds 1 to premium or to reserved as its first ticket decides |
| VivenuReport.AllTimeTotalsGuarded | vivenu_report_main.py:78-81 | Without a `status` column the totals are zero; with one, the result is exactly the as-written `AllTimeTotals` (values, KeyErrors and all); premium + reserved <= ticket purchases whenever they come back |
| VivenuReport.EmptyResponseTotals | vivenu_report_main.py:78 | As written, an empty API response raises KeyError on `status`; the guarded version gives zero totals for any table without a COMPLETE row |
| VivenuReport.CompletionRatio | vivenu_report_main.py:115-118 | "N/A" exactly when there are no COMPLETE and no CANCELED rows; otherwise a percentage p <= 100 with p*(c+x) <= 100*c < (p+1)*(c+x), i.e. the truncated ratio |
| VivenuReport.CompletionText | vivenu_report_main.py:115-118 | The text is "N/A" exactly for no ratio; otherwise it is a numeral whose value is the percentage, followed by "%", with no leading zero ("0%" only for 0) |
| VivenuReport.CompletionExamples | vivenu_report_main.py:116 | 3 COMPLETE and 1 CANCELED give "75%"; none of either gives "N/A"; 2 and 1 give 66, truncated |
| VivenuReport.Recent | vivenu_report_main.py:104-106 | The window keeps only input rows created strictly after the cutoff |
| VivenuReport.RecentNone | vivenu_report_main.py:106 | With no row created after the cutoff the window is empty |
| VivenuReport.RecentKeeps | vivenu_report_main.py:106 | Every row created strictly after the cutoff is kept |
| VivenuReport.RecentCount | vivenu_report_main.py:106 | The window keeps every copy of an in-window row and no copy of a row at or before the cutoff or with NaT |
| VivenuReport.WindowSummary | vivenu_report_main.py:104-126 | Succeeds exactly when `status`, `realPrice` and `tickets` are present; premium + reserved <= purchases |
| VivenuReport.WindowEmpty | vivenu_report_main.py:104-126 | With the three columns and no row in the window, the summary is revenue 0, "N/A", 0 premium, 0 reserved, 0 purchases |
| VivenuReport.WindowIgnoresOldRows | vivenu_report_main.py:106 | A row created at or before the cutoff, or with NaT, changes nothing wherever it is inserted |
| VivenuReport.WindowAddsRecentRow | vivenu_report_main.py:109-124 | An in-window row adds its price to revenue and its tickets to purchases whatever its status. It adds to premium/reserved only when COMPLETE. It leaves the completion ratio alone unless it is COMPLETE or CANCELED |
| VivenuReport.WindowCompletionNA | vivenu_report_main.py:112-118 | The ratio is "N/A" exactly when no row in the window is COMPLETE or CANCELED |
| VivenuReport.WindowCompletionAddsRow | vivenu_report_main.py:112-118 | The ratio is taken over the window's COMPLETE and CANCELED row counts; one more in-window row adds 1 to the count of its own status and leaves the other |
| VivenuReport.PurchaseCountExample | vivenu_report_main.py:109-126 | Two COMPLETE rows (1 and 2 tickets) and one CANCELED row (3 tickets) in the window give revenue 6000, 66%, and 6 purchases |
| VivenuReport.LastWeek | vivenu_report_main.py:94-126 | The four-field early return happens exactly when `createdAt` is missing; otherwise it succeeds exactly when the other three columns are present |
| VivenuReport.UnpackWeek | vivenu_report_main.py:166 | Unpacking into five names succeeds exactly for the five-field result; the four-field one raises ValueError(5, 4) |
| VivenuReport.LastWeekSummary | vivenu_report_main.py:100-126 | Without `createdAt` the zero summary (five fields); with it, the window summary since `now - days` days; succeeds in the same cases as written; premium + reserved <= purchases |
| VivenuReport.LastWeekArity | vivenu_report_main.py:100-102 | Without `createdAt` the result as written cannot be unpacked, while the five-field version gives the zero summary; with `createdAt` both agree |
| Decimal.Digits | vivenu_report_main.py:116 | `str(n)`: at least one digit, all digits, and a leading zero only in "0" itself |
| Decimal.DigitsRoundTrip | vivenu_report_main.py:116 | Reading `str(n)` back gives n |
| Decimal.TwoDigits | shopify_report_main.py:103 | The `.2f` fraction: exactly two digits whose value is n |
| Decimal.ThreeDigits | shopify_report_main.py:103 | A group after a separator: exactly three digits whose value is n |
| Decimal.Grouped | shopify_report_main.py:103 | The `,` option: a well-grouped numeral starting with a digit, with a leading zero only in "0" itself |
| Decimal.GroupedRoundTrip | shopify_report_main.py:103 | Reading the grouped numeral back group by group gives n |
| Money.FormatCents | shopify_report_main.py:103 | The written shape: "$", "-" exactly for a negative amount, an integer part in thousands groups that starts with a digit and is "0" whenever it starts with a zero (only below one unit), ".", then exactly two digits |
| Money.FormatCentsRoundTrip | shopify_report_main.py:103 | Parsing the formatted amount gives back the amount in cents, sign included |
| Money.FmtMoney | shopify_report_main.py:101-105 | A value that is not a number comes back as its own string; a number is written in that shape and parses back to itself. The ticketing report's copy (vivenu_report_main.py:187-191) is the same formatter |
| Money.FormatCentsExample | shopify_report_main.py:103 | 1234.50 is formatted as "$1,234.50" |
| Money.FmtMoneyExamples | shopify_report_main.py:101-105 | 1234.50 is written "$1,234.50"; "bad" comes back as "bad" |
| ShopifyReport.SalesBreakdown | shopify_report_main.py:77-93 | Revenue is the sum of the order totals. There is one row per line-item title and no other row, no title twice. Each row's quantity is the sum over items with exactly that title. Quantities add up to all items' quantities. Rows go from largest quantity to smallest |
| ShopifyReport.CountOrder | shopify_report_main.py:82-87 | The inner loop counts every line item of one order: starting from a dictionary that agrees with the items seen so far, it ends agreeing with those items plus the order's |
| ShopifyReport.CountItem | shopify_report_main.py:83-87 | One line item keeps the dictionary in agreement with the items. A known title grows by the item's quantity, with the key order unchanged. A new title is appended last with that quantity |
| ShopifyReport.TallyBump | shopify_report_main.py:84-85 | Adding an item under a title already in the dictionary keeps the loop invariant: keys = titles seen, exact per-title counts, values summing to the items' total |
| ShopifyReport.TallyAdd | shopify_report_main.py:86-87 | Adding an item under a new title appends the key and keeps the same invariant |
| ShopifyReport.EntryAt | shopify_report_main.py:90-91 | Row i of the table is the i-th inserted key with its value |
| ShopifyReport.EntriesFacts | shopify_report_main.py:90-91 | The table has one row per key, no key twice, each with its value |
| ShopifyReport.InsertBySold | shopify_report_main.py:93 | Inserting a row gives the same rows plus that one |
| ShopifyReport.InsertSorted | shopify_report_main.py:93 | Inserting into a table sorted by quantity keeps it sorted |
| ShopifyReport.SortBySold | shopify_report_main.py:93 | `sort_values(ascending=False)`: quantities non-increasing, and a permutation of the input rows |
| ShopifyReport.SortFacts | shopify_report_main.py:93 | Sorting keeps the set of products, the quantity total and the absence of duplicate products |
| ShopifyReport.SummaryFromTallies | shopify_report_main.py:89-93 | The sorted table of a dictionary that satisfies the loop invariant is the summary the report promises |
| ShopifyReport.CalculateRevenueAndSalesBreakdown | shopify_report_main.py:70-95 | No orders give the bare pair (0, empty table); otherwise the keyed summary of the orders |
| ShopifyReport.ReadSummary | shopify_report_main.py:117-118 | The report can read `total_revenue` and `breakdown_df` only from the keyed result; from the pair it raises TypeError |
| ShopifyReport.EmptyOrders | shopify_report_main.py:74-75 | The pair returned for no orders makes the report raise TypeError; the summary of no orders is revenue 0 with no rows, which the report can read |

## Left out

- HTTP fetching (`fetch_transaction_volume`, the storefront session and paginated order fetch, `time.sleep`): the table and the order list are parameters.
- The clock: `datetime.now` is the parameter `now`.
- E-mail delivery, the text and HTML templates, and the module-level calls that fetch, render and send at import time.
- The orchestration script and the connection smoke test are not part of this model.
- The first `fmt_money` (`vivenu_report_main.py:128-129`), which has no fallback for unconvertible values. Only the plain-text template uses it (line 131), when that template is called at import time (line 169); the redefinition at line 187 comes later and serves the HTML template (line 193).
- Floating point. Prices and revenue are integer cents, so float rounding in sums and in `.2f` formatting is not modelled.
- CompletionRatio: it is integer floor division. The source computes `int(c / (c + x) * 100)` in floats, which can be one lower (57 of 100 gives 56). The model does not capture that gap.
- Money.FmtMoney: any value that `float()` accepts is an integer number of cents. Strings such as `"12.5"`, `nan` and `inf`, and the OverflowError of a huge integer, are not modelled. The shopify copy catches only ValueError and TypeError, while the vivenu copy catches every exception.
- `pd.to_datetime(..., errors="coerce")` parsing: `createdAt` is already seconds, or `None` for NaT. The in-place update of the `createdAt` column (line 104) is not modelled. The table is the function's own fetch (line 98), so no caller sees the change, and the model's `createdAt` is already the parsed value that line 106 reads. Comparing time-zone-naive times with the aware cutoff, which raises TypeError in pandas, is not modelled.
- The ticket lists:
  - a ticket entry that is not a dict (`.get` would raise AttributeError) is not modelled;
  - per-row `NaN` prices are not modelled;
  - the tickets cell is either a list or something else (`None`).
- The storefront SDK objects: an order is its total price in cents and its line items (title, quantity).
- ShopifyReport.SortBySold: pandas' actual tie order among equal quantities is not modelled; the contract promises only sorted and a permutation, as the library does.

## Findings

| source | as written | input that shows it | evidently intended | confidence | as-written member | corrected member |
|---|---|---|---|---|---|---|
| vivenu_report_main.py:78 | Filters on the `status` column before checking whether the table is empty | An API response whose `docs` array is empty gives a DataFrame with no columns, so `transactions['status']` raises KeyError | Return (0, 0, 0, 0), as line 80-81 does for no COMPLETE rows | not executed | VivenuReport.AllTimeTotals (shown by VivenuReport.EmptyResponseTotals) | VivenuReport.AllTimeTotalsGuarded |
| vivenu_report_main.py:102 | Without a `createdAt` column it returns four values: `0, "N/A", 0, 0` | A response with a `status` column, no COMPLETE row and no `createdAt` column, so the call at line 165 returns zeros; line 166 unpacks five names and raises ValueError | Return five values with 0 ticket purchases | not executed | VivenuReport.LastWeek with VivenuReport.UnpackWeek (shown by VivenuReport.LastWeekArity) | VivenuReport.LastWeekSummary |
| shopify_report_main.py:75 | No orders return the tuple `(0, pd.DataFrame())` | An empty order list; lines 117-118 index the result with string keys and raise TypeError | Return `{'total_revenue': 0, 'breakdown_df': <empty table>}` | not executed | ShopifyReport.CalculateRevenueAndSalesBreakdown with ShopifyReport.ReadSummary (shown by ShopifyReport.EmptyOrders) | ShopifyReport.SalesBreakdown |
