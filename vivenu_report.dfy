/**
 * The aggregation arithmetic of the ticketing report (vivenu_report_main.py):
 * premium/reserved classification by a transaction's first ticket, the
 * ticket-purchase count, the all-time totals over COMPLETE transactions and
 * the summary of the last `days` days with its completion ratio.
 *
 * The transaction table stands for the pandas DataFrame built from the API's
 * `docs` array: the set of column names it has, and one row per transaction.
 * Reading a column the table does not have raises KeyError, as in pandas.
 */
module VivenuReport {
  import opened Wrappers
  import Decimal

  const PremiumTicketType: string := "68dffb2d8649a8638f79d42e"
  const ReservedTicketType: string := "68dffb3d8649a8638f79d42f"

  const Complete: string := "COMPLETE"
  const Canceled: string := "CANCELED"

  const StatusColumn: string := "status"
  const RealPriceColumn: string := "realPrice"
  const CreatedAtColumn: string := "createdAt"
  const TicketsColumn: string := "tickets"

  const SecondsPerDay: int := 86400
  /** The default of `days` in `fetch_transaction_last_week`. */
  const DefaultDays: int := 7

  /** One entry of a transaction's ticket list; `.get("ticketTypeId")` is None when the key is absent. */
  datatype Ticket = Ticket(ticketTypeId: Option<string>)

  /**
   * A transaction row. Money is in cents and times in seconds. `createdAt`
   * is the value after `pd.to_datetime(..., errors="coerce")`: None for a
   * value that did not parse (NaT). `tickets` is None when the cell is not a
   * list.
   */
  datatype Transaction = Transaction(
    status: string,
    realPrice: int,
    createdAt: Option<int>,
    tickets: Option<seq<Ticket>>)

  datatype Table = Table(columns: set<string>, rows: seq<Transaction>)

  /** The table of an API response whose `docs` array is empty: no columns, no rows. */
  const EmptyResponse: Table := Table({}, [])

  /** Exceptions the code raises: KeyError for a missing column; ValueError for unpacking a tuple of the wrong length. */
  datatype Error = KeyError(column: string) | ValueError(expected: nat, got: nat)

  // ---------------------------------------------------------------------
  // Classification by the first ticket
  // ---------------------------------------------------------------------

  datatype Kind = Premium | Reserved | Unclassified

  /** True when the tickets cell is a non-empty list. */
  predicate HasTickets(tx: Transaction) {
    tx.tickets.Some? && |tx.tickets.value| > 0
  }

  /** The bucket a transaction falls in: decided by the type id of its first ticket alone. */
  function Classify(tx: Transaction): (k: Kind)
    ensures k != Unclassified ==> HasTickets(tx)
  {
    if !HasTickets(tx) then Unclassified
    else
      var id := tx.tickets.value[0].ticketTypeId;
      if id == Some(PremiumTicketType) then Premium
      else if id == Some(ReservedTicketType) then Reserved
      else Unclassified
  }

  /** Tickets after the first never change the classification. */
  lemma ClassifyByFirstTicket(a: Transaction, b: Transaction)
    requires HasTickets(a) && HasTickets(b)
    requires a.tickets.value[0] == b.tickets.value[0]
    ensures Classify(a) == Classify(b)
  {
  }

  /** Number of rows in bucket `k`. */
  function CountKind(rows: seq<Transaction>, k: Kind): nat {
    if rows == [] then 0 else (if Classify(rows[0]) == k then 1 else 0) + CountKind(rows[1..], k)
  }

  /** Number of rows whose tickets cell is a non-empty list. */
  function ListedCount(rows: seq<Transaction>): nat {
    if rows == [] then 0 else (if HasTickets(rows[0]) then 1 else 0) + ListedCount(rows[1..])
  }

  lemma {:induction false} CountKindAppend(a: seq<Transaction>, b: seq<Transaction>, k: Kind)
    ensures CountKind(a + b, k) == CountKind(a, k) + CountKind(b, k)
  {
    if a == [] {
      assert a + b == b;
    } else {
      assert (a + b)[1..] == a[1..] + b;
      CountKindAppend(a[1..], b, k);
    }
  }

  /** Premium and reserved together never exceed the rows that have a ticket list. */
  lemma {:induction false} ClassifiedAtMostListed(rows: seq<Transaction>)
    ensures CountKind(rows, Premium) + CountKind(rows, Reserved) <= ListedCount(rows) <= |rows|
  {
    if rows != [] {
      ClassifiedAtMostListed(rows[1..]);
    }
  }

  /** `fetch_premium_reserved_tickets` as a value: (0, 0) without a `tickets` column. */
  function PremiumReserved(t: Table): (r: (nat, nat))
    ensures TicketsColumn !in t.columns ==> r == (0, 0)
    ensures r.0 + r.1 <= ListedCount(t.rows)
  {
    ClassifiedAtMostListed(t.rows);
    if TicketsColumn !in t.columns then (0, 0)
    else (CountKind(t.rows, Premium), CountKind(t.rows, Reserved))
  }

  /**
   * One more row: the premium id on its first ticket adds one to premium and
   * nothing to reserved, the reserved id the other way round; any other id,
   * an empty list or a cell that is not a list adds nothing.
   */
  lemma PremiumReservedAddsRow(t: Table, tx: Transaction)
    requires TicketsColumn in t.columns
    ensures var (p, r) := PremiumReserved(t);
      var (p', r') := PremiumReserved(Table(t.columns, t.rows + [tx]));
      var first := if HasTickets(tx) then tx.tickets.value[0].ticketTypeId else None;
      && p' == p + (if first == Some(PremiumTicketType) then 1 else 0)
      && r' == r + (if first == Some(ReservedTicketType) then 1 else 0)
  {
    CountKindAppend(t.rows, [tx], Premium);
    CountKindAppend(t.rows, [tx], Reserved);
    assert [tx][1..] == [];
    assert PremiumTicketType != ReservedTicketType by {
      assert PremiumTicketType[6] != ReservedTicketType[6];
    }
  }

  /**
   * `fetch_premium_reserved_tickets`: one pass over the tickets column,
   * counting by first ticket. The totals below are stated with the value
   * `PremiumReserved`, which this loop is proved to compute.
   */
  method CountPremiumReserved(t: Table) returns (premium: nat, reserved: nat)
    ensures (premium, reserved) == PremiumReserved(t)
    ensures TicketsColumn !in t.columns ==> premium == 0 && reserved == 0
    ensures TicketsColumn in t.columns ==>
      premium == CountKind(t.rows, Premium) && reserved == CountKind(t.rows, Reserved)
    ensures premium + reserved <= ListedCount(t.rows)
  {
    premium, reserved := 0, 0;
    if TicketsColumn !in t.columns {
      return;
    }
    for i := 0 to |t.rows|
      invariant premium == CountKind(t.rows[..i], Premium)
      invariant reserved == CountKind(t.rows[..i], Reserved)
    {
      var tx := t.rows[i];
      assert t.rows[..i + 1] == t.rows[..i] + [tx];
      CountKindAppend(t.rows[..i], [tx], Premium);
      CountKindAppend(t.rows[..i], [tx], Reserved);
      if tx.tickets.None? || |tx.tickets.value| == 0 {
        continue;
      }
      var ticketId := tx.tickets.value[0].ticketTypeId;
      if ticketId == Some(PremiumTicketType) {
        premium := premium + 1;
      } else if ticketId == Some(ReservedTicketType) {
        reserved := reserved + 1;
      }
    }
    assert t.rows[..|t.rows|] == t.rows;
    ClassifiedAtMostListed(t.rows);
  }

  // ---------------------------------------------------------------------
  // Ticket-purchase count
  // ---------------------------------------------------------------------

  /** The length of the tickets cell if it is a list, else 0. */
  function TicketLength(tx: Transaction): nat {
    match tx.tickets
    case None => 0
    case Some(ts) => |ts|
  }

  function TicketTotal(rows: seq<Transaction>): nat {
    if rows == [] then 0 else TicketLength(rows[0]) + TicketTotal(rows[1..])
  }

  lemma {:induction false} TicketTotalAppend(a: seq<Transaction>, b: seq<Transaction>)
    ensures TicketTotal(a + b) == TicketTotal(a) + TicketTotal(b)
  {
    if a == [] {
      assert a + b == b;
    } else {
      assert (a + b)[1..] == a[1..] + b;
      TicketTotalAppend(a[1..], b);
    }
  }

  /** Every row with a non-empty list contributes at least one purchase. */
  lemma {:induction false} ListedAtMostTickets(rows: seq<Transaction>)
    ensures ListedCount(rows) <= TicketTotal(rows)
  {
    if rows != [] {
      ListedAtMostTickets(rows[1..]);
    }
  }

  /** `fetch_number_orders`: the sum of ticket-list lengths; KeyError without a `tickets` column. */
  function NumberOrders(t: Table): (r: Result<nat, Error>)
    ensures r.Ok? <==> TicketsColumn in t.columns
    ensures r.Err? ==> r.error == KeyError(TicketsColumn)
    ensures r.Ok? ==> r.value == TicketTotal(t.rows) >= ListedCount(t.rows)
  {
    if TicketsColumn !in t.columns then Err(KeyError(TicketsColumn))
    else
      ListedAtMostTickets(t.rows);
      Ok(TicketTotal(t.rows))
  }

  // ---------------------------------------------------------------------
  // Row filters and the revenue sum
  // ---------------------------------------------------------------------

  /** The rows whose status equals `status`, in order. */
  function WithStatus(rows: seq<Transaction>, status: string): (r: seq<Transaction>)
    ensures forall tx | tx in r :: tx in rows && tx.status == status
  {
    if rows == [] then []
    else if rows[0].status == status then [rows[0]] + WithStatus(rows[1..], status)
    else WithStatus(rows[1..], status)
  }

  lemma {:induction false} WithStatusAppend(a: seq<Transaction>, b: seq<Transaction>, status: string)
    ensures WithStatus(a + b, status) == WithStatus(a, status) + WithStatus(b, status)
  {
    if a == [] {
      assert a + b == b;
    } else {
      assert (a + b)[1..] == a[1..] + b;
      WithStatusAppend(a[1..], b, status);
    }
  }

  /** Filtering keeps a row exactly when it has the status. */
  lemma {:induction false} WithStatusKeeps(rows: seq<Transaction>, status: string)
    ensures forall tx | tx in rows && tx.status == status :: tx in WithStatus(rows, status)
    ensures (forall tx | tx in rows :: tx.status != status) ==> WithStatus(rows, status) == []
  {
    if rows != [] {
      WithStatusKeeps(rows[1..], status);
    }
  }

  /** Filtering keeps every copy of a row with the status and no copy of any other row. */
  lemma {:induction false} WithStatusCount(rows: seq<Transaction>, status: string, tx: Transaction)
    ensures multiset(WithStatus(rows, status))[tx] == if tx.status == status then multiset(rows)[tx] else 0
  {
    if rows != [] {
      assert rows == [rows[0]] + rows[1..];
      WithStatusCount(rows[1..], status, tx);
    }
  }

  /** Number of rows with the given status. */
  function StatusCount(rows: seq<Transaction>, status: string): nat {
    if rows == [] then 0 else (if rows[0].status == status then 1 else 0) + StatusCount(rows[1..], status)
  }

  /** The filter has one row per row with the status, which lines 112-113 count with `.shape[0]`. */
  lemma {:induction false} WithStatusLength(rows: seq<Transaction>, status: string)
    ensures |WithStatus(rows, status)| == StatusCount(rows, status)
  {
    if rows != [] {
      WithStatusLength(rows[1..], status);
    }
  }

  function PriceTotal(rows: seq<Transaction>): int {
    if rows == [] then 0 else rows[0].realPrice + PriceTotal(rows[1..])
  }

  lemma {:induction false} PriceTotalAppend(a: seq<Transaction>, b: seq<Transaction>)
    ensures PriceTotal(a + b) == PriceTotal(a) + PriceTotal(b)
  {
    if a == [] {
      assert a + b == b;
    } else {
      assert (a + b)[1..] == a[1..] + b;
      PriceTotalAppend(a[1..], b);
    }
  }

  // ---------------------------------------------------------------------
  // All-time totals (fetch_total_transactions)
  // ---------------------------------------------------------------------

  /** (total revenue, ticket purchases, premium, reserved), in the order the source returns them. */
  datatype Totals = Totals(revenue: int, ticketPurchases: nat, premium: nat, reserved: nat)

  const NoTotals: Totals := Totals(0, 0, 0, 0)

  /**
   * `fetch_total_transactions` on an already fetched table, as written:
   * keep the COMPLETE rows, return zeros when none is left, else sum their
   * prices and count their tickets and premium/reserved buckets.
   */
  function AllTimeTotals(t: Table): (r: Result<Totals, Error>)
    ensures StatusColumn !in t.columns ==> r == Err(KeyError(StatusColumn))
    ensures StatusColumn in t.columns && WithStatus(t.rows, Complete) != [] ==>
      && (RealPriceColumn !in t.columns ==> r == Err(KeyError(RealPriceColumn)))
      && (RealPriceColumn in t.columns && TicketsColumn !in t.columns ==> r == Err(KeyError(TicketsColumn)))
    ensures r.Ok? <==>
      StatusColumn in t.columns && (WithStatus(t.rows, Complete) == [] || {RealPriceColumn, TicketsColumn} <= t.columns)
    ensures r.Ok? ==> r.value.premium + r.value.reserved <= r.value.ticketPurchases
  {
    if StatusColumn !in t.columns then Err(KeyError(StatusColumn))
    else
      var done := Table(t.columns, WithStatus(t.rows, Complete));
      if done.rows == [] then Ok(NoTotals)
      else if RealPriceColumn !in t.columns then Err(KeyError(RealPriceColumn))
      else
        var (premium, reserved) := PremiumReserved(done);
        match NumberOrders(done)
        case Err(e) => Err(e)
        case Ok(n) =>
          ClassifiedAtMostListed(done.rows);
          Ok(Totals(PriceTotal(done.rows), n, premium, reserved))
  }

  /** Without any COMPLETE row the totals are all zero. */
  lemma AllTimeZeroWithoutComplete(t: Table)
    requires StatusColumn in t.columns
    requires forall tx | tx in t.rows :: tx.status != Complete
    ensures AllTimeTotals(t) == Ok(NoTotals)
  {
    WithStatusKeeps(t.rows, Complete);
  }

  /**
   * A row whose status is not COMPLETE, inserted anywhere, changes none of the
   * all-time totals; in particular a CANCELED premium transaction adds nothing
   * to the premium count.
   */
  lemma AllTimeIgnoresOtherStatus(t: Table, k: nat, tx: Transaction)
    requires k <= |t.rows| && tx.status != Complete
    ensures AllTimeTotals(Table(t.columns, t.rows[..k] + [tx] + t.rows[k..])) == AllTimeTotals(t)
  {
    var a, b := t.rows[..k], t.rows[k..];
    assert WithStatus(a + [tx] + b, Complete) == WithStatus(t.rows, Complete) by {
      assert t.rows == a + b;
      WithStatusAppend(a + [tx], b, Complete);
      WithStatusAppend(a, [tx], Complete);
      WithStatusAppend(a, b, Complete);
    }
  }

  /**
   * One more COMPLETE row, with every column present: its price is added to
   * the revenue, its tickets to the purchases, and it adds one to premium or
   * reserved as its first ticket decides.
   */
  lemma AllTimeAddsCompleteRow(t: Table, tx: Transaction)
    requires {StatusColumn, RealPriceColumn, TicketsColumn} <= t.columns
    requires tx.status == Complete
    ensures AllTimeTotals(t).Ok?
    ensures var before := AllTimeTotals(t).value;
      var after := AllTimeTotals(Table(t.columns, t.rows + [tx]));
      && after.Ok?
      && after.value.revenue == before.revenue + tx.realPrice
      && after.value.ticketPurchases == before.ticketPurchases + TicketLength(tx)
      && after.value.premium == before.premium + (if Classify(tx) == Premium then 1 else 0)
      && after.value.reserved == before.reserved + (if Classify(tx) == Reserved then 1 else 0)
  {
    var done := WithStatus(t.rows, Complete);
    WithStatusAppend(t.rows, [tx], Complete);
    assert WithStatus([tx], Complete) == [tx];
    PriceTotalAppend(done, [tx]);
    TicketTotalAppend(done, [tx]);
    CountKindAppend(done, [tx], Premium);
    CountKindAppend(done, [tx], Reserved);
  }

  /**
   * `fetch_total_transactions` with a missing `status` column read as "no
   * COMPLETE row", which is what an empty API response produces.
   */
  function AllTimeTotalsGuarded(t: Table): (r: Result<Totals, Error>)
    ensures StatusColumn !in t.columns ==> r == Ok(NoTotals)
    ensures StatusColumn in t.columns ==> r == AllTimeTotals(t)
    ensures r.Ok? ==> r.value.premium + r.value.reserved <= r.value.ticketPurchases
  {
    if StatusColumn !in t.columns then Ok(NoTotals) else AllTimeTotals(t)
  }

  /**
   * As written, an API response with no transactions raises KeyError on
   * `status`; the guarded version returns zero totals for it and for any
   * table without a COMPLETE row.
   */
  lemma EmptyResponseTotals(t: Table)
    requires forall tx | tx in t.rows :: tx.status != Complete
    ensures AllTimeTotals(EmptyResponse) == Err(KeyError(StatusColumn))
    ensures AllTimeTotalsGuarded(t) == Ok(NoTotals)
  {
    if StatusColumn in t.columns {
      AllTimeZeroWithoutComplete(t);
    }
  }

  // ---------------------------------------------------------------------
  // Completion ratio
  // ---------------------------------------------------------------------

  /** The completion ratio: "N/A", or a whole percentage. */
  datatype Completion = NotAvailable | Percent(percent: nat)

  /**
   * completed / (completed + canceled) as a percentage, truncated to an
   * integer, or NotAvailable when both counts are zero.
   */
  function CompletionRatio(completed: nat, canceled: nat): (c: Completion)
    ensures c.NotAvailable? <==> completed + canceled == 0
    ensures c.Percent? ==> c.percent <= 100
    ensures c.Percent? ==>
      c.percent * (completed + canceled) <= 100 * completed < (c.percent + 1) * (completed + canceled)
  {
    if completed + canceled > 0 then Percent(100 * completed / (completed + canceled)) else NotAvailable
  }

  /** The ratio as the report writes it: `"N/A"` or the percentage followed by `"%"`. */
  function CompletionText(c: Completion): (s: string)
    ensures s == "N/A" <==> c.NotAvailable?
    ensures c.Percent? ==>
      2 <= |s| && s[|s| - 1] == '%' && Decimal.AllDigits(s[..|s| - 1]) &&
      Decimal.ValueOf(s[..|s| - 1]) == c.percent
    ensures c.Percent? ==> (s[0] == '0' ==> s == "0%")
  {
    match c
    case NotAvailable => "N/A"
    case Percent(p) =>
      var s := Decimal.Digits(p) + "%";
      assert s[..|s| - 1] == Decimal.Digits(p);
      Decimal.DigitsRoundTrip(p);
      s
  }

  /** Three COMPLETE and one CANCELED give "75%"; none of either gives "N/A". */
  lemma CompletionExamples()
    ensures CompletionText(CompletionRatio(3, 1)) == "75%"
    ensures CompletionText(CompletionRatio(0, 0)) == "N/A"
    ensures CompletionRatio(2, 1) == Percent(66)
  {
    assert Decimal.Digits(75) == "75" by {
      assert Decimal.DigitChar(7) == '7';
      assert Decimal.DigitChar(5) == '5';
    }
  }

  // ---------------------------------------------------------------------
  // The last `days` days (fetch_transaction_last_week)
  // ---------------------------------------------------------------------

  /** `now - timedelta(days=days)`, in seconds. */
  function Cutoff(now: int, days: int): int {
    now - days * SecondsPerDay
  }

  /** A row is in the window when it was created strictly after the cutoff; NaT never is. */
  predicate InWindow(tx: Transaction, cutoff: int) {
    tx.createdAt.Some? && tx.createdAt.value > cutoff
  }

  function Recent(rows: seq<Transaction>, cutoff: int): (r: seq<Transaction>)
    ensures forall tx | tx in r :: tx in rows && InWindow(tx, cutoff)
  {
    if rows == [] then []
    else if InWindow(rows[0], cutoff) then [rows[0]] + Recent(rows[1..], cutoff)
    else Recent(rows[1..], cutoff)
  }

  lemma {:induction false} RecentAppend(a: seq<Transaction>, b: seq<Transaction>, cutoff: int)
    ensures Recent(a + b, cutoff) == Recent(a, cutoff) + Recent(b, cutoff)
  {
    if a == [] {
      assert a + b == b;
    } else {
      assert (a + b)[1..] == a[1..] + b;
      RecentAppend(a[1..], b, cutoff);
    }
  }

  /** The window keeps every row created after the cutoff. */
  lemma {:induction false} RecentKeeps(rows: seq<Transaction>, cutoff: int)
    ensures forall tx | tx in rows && InWindow(tx, cutoff) :: tx in Recent(rows, cutoff)
  {
    if rows != [] {
      RecentKeeps(rows[1..], cutoff);
    }
  }

  /** With no row created after the cutoff, the window is empty. */
  lemma {:induction false} RecentNone(rows: seq<Transaction>, cutoff: int)
    requires forall tx | tx in rows :: !InWindow(tx, cutoff)
    ensures Recent(rows, cutoff) == []
  {
    if rows != [] {
      assert rows[0] in rows;
      RecentNone(rows[1..], cutoff);
    }
  }

  /** The window keeps every copy of an in-window row and no copy of any other row. */
  lemma {:induction false} RecentCount(rows: seq<Transaction>, cutoff: int, tx: Transaction)
    ensures multiset(Recent(rows, cutoff))[tx] == if InWindow(tx, cutoff) then multiset(rows)[tx] else 0
  {
    if rows != [] {
      assert rows == [rows[0]] + rows[1..];
      RecentCount(rows[1..], cutoff, tx);
    }
  }

  /** (revenue, completion ratio, premium, reserved, ticket purchases) over the window. */
  datatype WeekSummary = WeekSummary(
    revenue: int,
    completion: Completion,
    premium: nat,
    reserved: nat,
    ticketPurchases: nat)

  /**
   * What `fetch_transaction_last_week` returns: the four-element early
   * return, or the five-element normal one.
   */
  datatype WeekResult =
    | Short(revenue: int, completion: Completion, premium: nat, reserved: nat)
    | Full(summary: WeekSummary)

  /**
   * The summary of the rows created after `cutoff`, for a table that has a
   * `createdAt` column: revenue over every recent row, the completion ratio
   * over the recent COMPLETE and CANCELED rows, premium/reserved over the
   * recent COMPLETE rows and ticket purchases over every recent row.
   */
  function WindowSummary(t: Table, cutoff: int): (r: Result<WeekSummary, Error>)
    ensures r.Ok? <==> {StatusColumn, RealPriceColumn, TicketsColumn} <= t.columns
    ensures r.Ok? ==> r.value.premium + r.value.reserved <= r.value.ticketPurchases
  {
    var recent := Recent(t.rows, cutoff);
    if RealPriceColumn !in t.columns then Err(KeyError(RealPriceColumn))
    else if StatusColumn !in t.columns then Err(KeyError(StatusColumn))
    else
      var completed := WithStatus(recent, Complete);
      var completion := CompletionRatio(|completed|, |WithStatus(recent, Canceled)|);
      var (premium, reserved) := PremiumReserved(Table(t.columns, completed));
      match NumberOrders(Table(t.columns, recent))
      case Err(e) => Err(e)
      case Ok(n) =>
        ClassifiedAtMostListed(completed);
        CompleteListedAtMost(recent);
        Ok(WeekSummary(PriceTotal(recent), completion, premium, reserved, n))
  }

  /** The COMPLETE rows have no more listed tickets than all rows have tickets. */
  lemma {:induction false} CompleteListedAtMost(rows: seq<Transaction>)
    ensures ListedCount(WithStatus(rows, Complete)) <= TicketTotal(rows)
  {
    if rows != [] {
      CompleteListedAtMost(rows[1..]);
      if rows[0].status == Complete {
        var r := WithStatus(rows, Complete);
        assert r[1..] == WithStatus(rows[1..], Complete);
      }
    }
  }

  /** `fetch_transaction_last_week(days)` on an already fetched table, as written. */
  function LastWeek(t: Table, now: int, days: int): (r: Result<WeekResult, Error>)
    ensures r.Ok? && r.value.Short? <==> CreatedAtColumn !in t.columns
    ensures r.Ok? <==> CreatedAtColumn !in t.columns || {StatusColumn, RealPriceColumn, TicketsColumn} <= t.columns
  {
    if CreatedAtColumn !in t.columns then Ok(Short(0, NotAvailable, 0, 0))
    else
      match WindowSummary(t, Cutoff(now, days))
      case Err(e) => Err(e)
      case Ok(s) => Ok(Full(s))
  }

  /** The caller's unpacking of the result into five names (vivenu_report_main.py:166). */
  function UnpackWeek(w: WeekResult): (r: Result<WeekSummary, Error>)
    ensures r.Ok? <==> w.Full?
    ensures w.Short? ==> r == Err(ValueError(5, 4))
  {
    match w
    case Short(_, _, _, _) => Err(ValueError(5, 4))
    case Full(s) => Ok(s)
  }

  /** `fetch_transaction_last_week` with the early return widened to five fields. */
  function LastWeekSummary(t: Table, now: int, days: int): (r: Result<WeekSummary, Error>)
    ensures CreatedAtColumn !in t.columns ==> r == Ok(WeekSummary(0, NotAvailable, 0, 0, 0))
    ensures CreatedAtColumn in t.columns ==> r == WindowSummary(t, Cutoff(now, days))
    ensures r.Ok? <==> CreatedAtColumn !in t.columns || {StatusColumn, RealPriceColumn, TicketsColumn} <= t.columns
    ensures r.Ok? ==> r.value.premium + r.value.reserved <= r.value.ticketPurchases
  {
    if CreatedAtColumn !in t.columns then Ok(WeekSummary(0, NotAvailable, 0, 0, 0))
    else WindowSummary(t, Cutoff(now, days))
  }

  /**
   * Without a `createdAt` column the source returns four values where its
   * caller unpacks five; the widened version returns the zero summary, and
   * whenever the column exists the two agree.
   */
  lemma LastWeekArity(t: Table, now: int, days: int)
    ensures CreatedAtColumn !in t.columns ==>
      && LastWeek(t, now, days) == Ok(Short(0, NotAvailable, 0, 0))
      && UnpackWeek(LastWeek(t, now, days).value) == Err(ValueError(5, 4))
      && LastWeekSummary(t, now, days) == Ok(WeekSummary(0, NotAvailable, 0, 0, 0))
    ensures CreatedAtColumn in t.columns ==>
      && LastWeek(t, now, days).Ok? == LastWeekSummary(t, now, days).Ok?
      && (LastWeek(t, now, days).Ok? ==>
            UnpackWeek(LastWeek(t, now, days).value) == LastWeekSummary(t, now, days))
  {
  }

  /** A row outside the window, inserted anywhere, changes nothing in the summary. */
  lemma WindowIgnoresOldRows(t: Table, cutoff: int, k: nat, tx: Transaction)
    requires k <= |t.rows| && !InWindow(tx, cutoff)
    ensures WindowSummary(Table(t.columns, t.rows[..k] + [tx] + t.rows[k..]), cutoff) == WindowSummary(t, cutoff)
  {
    var a, b := t.rows[..k], t.rows[k..];
    assert Recent(a + [tx] + b, cutoff) == Recent(t.rows, cutoff) by {
      assert t.rows == a + b;
      RecentAppend(a + [tx], b, cutoff);
      RecentAppend(a, [tx], cutoff);
      RecentAppend(a, b, cutoff);
    }
  }

  /**
   * A row inside the window adds its price to the revenue and its tickets to
   * the purchase count whatever its status, but counts towards premium or
   * reserved only when COMPLETE, and leaves the completion ratio unchanged
   * unless it is COMPLETE or CANCELED.
   */
  lemma WindowAddsRecentRow(t: Table, cutoff: int, tx: Transaction)
    requires {StatusColumn, RealPriceColumn, TicketsColumn} <= t.columns
    requires InWindow(tx, cutoff)
    ensures var before := WindowSummary(t, cutoff).value;
      var after := WindowSummary(Table(t.columns, t.rows + [tx]), cutoff).value;
      && after.revenue == before.revenue + tx.realPrice
      && after.ticketPurchases == before.ticketPurchases + TicketLength(tx)
      && after.premium == before.premium + (if tx.status == Complete && Classify(tx) == Premium then 1 else 0)
      && after.reserved == before.reserved + (if tx.status == Complete && Classify(tx) == Reserved then 1 else 0)
      && (tx.status != Complete && tx.status != Canceled ==> after.completion == before.completion)
  {
    var recent := Recent(t.rows, cutoff);
    RecentAppend(t.rows, [tx], cutoff);
    assert Recent([tx], cutoff) == [tx];
    PriceTotalAppend(recent, [tx]);
    TicketTotalAppend(recent, [tx]);
    WithStatusAppend(recent, [tx], Complete);
    WithStatusAppend(recent, [tx], Canceled);
    CountKindAppend(WithStatus(recent, Complete), WithStatus([tx], Complete), Premium);
    CountKindAppend(WithStatus(recent, Complete), WithStatus([tx], Complete), Reserved);
  }

  /** A window with no row in it sums to zero everywhere, and its ratio is "N/A". */
  lemma WindowEmpty(t: Table, cutoff: int)
    requires {StatusColumn, RealPriceColumn, TicketsColumn} <= t.columns
    requires forall tx | tx in t.rows :: !InWindow(tx, cutoff)
    ensures WindowSummary(t, cutoff) == Ok(WeekSummary(0, NotAvailable, 0, 0, 0))
  {
    RecentNone(t.rows, cutoff);
  }

  /** The ratio is "N/A" exactly when no row in the window is COMPLETE or CANCELED. */
  lemma WindowCompletionNA(t: Table, cutoff: int)
    requires {StatusColumn, RealPriceColumn, TicketsColumn} <= t.columns
    ensures WindowSummary(t, cutoff).value.completion.NotAvailable? <==>
      forall tx | tx in t.rows && InWindow(tx, cutoff) :: tx.status != Complete && tx.status != Canceled
  {
    var recent := Recent(t.rows, cutoff);
    RecentKeeps(t.rows, cutoff);
    WithStatusKeeps(recent, Complete);
    WithStatusKeeps(recent, Canceled);
    if WithStatus(recent, Complete) != [] {
      assert WithStatus(recent, Complete)[0] in WithStatus(recent, Complete);
    }
    if WithStatus(recent, Canceled) != [] {
      assert WithStatus(recent, Canceled)[0] in WithStatus(recent, Canceled);
    }
  }

  /**
   * The ratio is taken over the COMPLETE and CANCELED rows of the window, and
   * one more row in the window adds one to the count of its own status.
   */
  lemma WindowCompletionAddsRow(t: Table, cutoff: int, tx: Transaction)
    requires {StatusColumn, RealPriceColumn, TicketsColumn} <= t.columns
    requires InWindow(tx, cutoff)
    ensures var recent := Recent(t.rows, cutoff);
      var completed, canceled := StatusCount(recent, Complete), StatusCount(recent, Canceled);
      && WindowSummary(t, cutoff).value.completion == CompletionRatio(completed, canceled)
      && WindowSummary(Table(t.columns, t.rows + [tx]), cutoff).value.completion
         == CompletionRatio(completed + (if tx.status == Complete then 1 else 0),
                            canceled + (if tx.status == Canceled then 1 else 0))
  {
    var recent := Recent(t.rows, cutoff);
    RecentAppend(t.rows, [tx], cutoff);
    assert Recent([tx], cutoff) == [tx];
    WithStatusLength(recent, Complete);
    WithStatusLength(recent, Canceled);
    WithStatusAppend(recent, [tx], Complete);
    WithStatusAppend(recent, [tx], Canceled);
  }

  /** Three rows in the window: COMPLETE `a` and `b`, CANCELED `c`. */
  lemma ExampleFilters(a: Transaction, b: Transaction, c: Transaction, cutoff: int)
    requires InWindow(a, cutoff) && InWindow(b, cutoff) && InWindow(c, cutoff)
    requires a.status == Complete && b.status == Complete && c.status == Canceled
    ensures Recent([a, b, c], cutoff) == [a, b, c]
    ensures WithStatus([a, b, c], Complete) == [a, b]
    ensures WithStatus([a, b, c], Canceled) == [c]
  {
    assert [a, b, c][1..] == [b, c] && [b, c][1..] == [c] && [c][1..] == [];
    assert Recent([c], cutoff) == [c] + Recent([], cutoff) == [c];
    assert Recent([b, c], cutoff) == [b] + Recent([c], cutoff) == [b, c];
    assert Complete != Canceled by {
      assert Complete[1] != Canceled[1];
    }
    assert WithStatus([c], Complete) == WithStatus([], Complete) == [];
    assert WithStatus([b, c], Complete) == [b] + WithStatus([c], Complete) == [b];
    assert WithStatus([c], Canceled) == [c] + WithStatus([], Canceled) == [c];
    assert WithStatus([b, c], Canceled) == WithStatus([c], Canceled);
  }

  /** Tickets and prices of three rows, added up. */
  lemma ExampleSums(a: Transaction, b: Transaction, c: Transaction)
    ensures TicketTotal([a, b, c]) == TicketLength(a) + TicketLength(b) + TicketLength(c)
    ensures PriceTotal([a, b, c]) == a.realPrice + b.realPrice + c.realPrice
  {
    assert [a, b, c][1..] == [b, c] && [b, c][1..] == [c] && [c][1..] == [];
    assert TicketTotal([c]) == TicketLength(c) + TicketTotal([]);
    assert PriceTotal([c]) == c.realPrice + PriceTotal([]);
  }

  /** Two rows whose tickets name neither ticket type count as neither. */
  lemma ExampleKinds(a: Transaction, b: Transaction)
    requires Classify(a) == Unclassified && Classify(b) == Unclassified
    ensures CountKind([a, b], Premium) == 0 && CountKind([a, b], Reserved) == 0
  {
    assert [a, b][1..] == [b] && [b][1..] == [];
    assert CountKind([b], Premium) == CountKind([], Premium) == 0;
    assert CountKind([b], Reserved) == CountKind([], Reserved) == 0;
  }

  /**
   * Two COMPLETE rows with one and two tickets and a CANCELED row with three,
   * all in the window, make six ticket purchases and a 66% completion ratio.
   */
  lemma PurchaseCountExample(now: int)
    ensures var columns := {StatusColumn, RealPriceColumn, CreatedAtColumn, TicketsColumn};
      var ticket := Ticket(None);
      var rows := [
        Transaction(Complete, 1000, Some(now), Some([ticket])),
        Transaction(Complete, 2000, Some(now), Some([ticket, ticket])),
        Transaction(Canceled, 3000, Some(now), Some([ticket, ticket, ticket]))];
      LastWeekSummary(Table(columns, rows), now, DefaultDays)
        == Ok(WeekSummary(6000, Percent(66), 0, 0, 6))
  {
    var ticket := Ticket(None);
    var a := Transaction(Complete, 1000, Some(now), Some([ticket]));
    var b := Transaction(Complete, 2000, Some(now), Some([ticket, ticket]));
    var c := Transaction(Canceled, 3000, Some(now), Some([ticket, ticket, ticket]));
    ExampleFilters(a, b, c, Cutoff(now, DefaultDays));
    ExampleSums(a, b, c);
    ExampleKinds(a, b);
    CompletionExamples();
  }
}
