/**
 * The hand-written queries and aggregates of InvoiceRepository, over the
 * invoice table as a sequence of rows in table order. A NULL column never
 * satisfies a comparison, as in SQL.
 */
module InvoiceQueries {
  import opened Wrappers
  import opened Common
  import opened Invoices

  /** `column BETWEEN start AND end`: inclusive at both ends, and false on NULL. */
  predicate Between(column: Option<Date>, start: Date, end: Date) {
    column.Some? && start <= column.value <= end
  }

  datatype InvoiceQuery =
    | OverdueOn(currentDate: Date)                                   // findOverdueInvoices
    | DueBetween(startDate: Date, endDate: Date)                     // findInvoicesDueBetween
    | IssuedBetween(startDate: Date, endDate: Date)                  // findByIssueDateBetween
    | WithStatus(status: InvoiceStatus)                              // countByStatus
    | WithStatusIssuedBetween(status: InvoiceStatus, startDate: Date, endDate: Date)  // sumTotalByStatusAndDateRange

  /** The WHERE clause of each query. */
  predicate Matches(row: InvoiceRow, q: InvoiceQuery) {
    match q
    case OverdueOn(currentDate) => row.dueDate.Some? && row.dueDate.value < currentDate && row.status == Some(Sent)
    case DueBetween(startDate, endDate) => Between(row.dueDate, startDate, endDate) && row.status == Some(Sent)
    case IssuedBetween(startDate, endDate) => Between(row.issueDate, startDate, endDate)
    case WithStatus(status) => row.status == Some(status)
    case WithStatusIssuedBetween(status, startDate, endDate) =>
      row.status == Some(status) && Between(row.issueDate, startDate, endDate)
  }

  /** The rows a query returns, in table order. */
  function Query(rows: seq<InvoiceRow>, q: InvoiceQuery): (res: seq<InvoiceRow>)
    ensures |res| <= |rows|
    ensures forall r :: r in res ==> r in rows && Matches(r, q)
  {
    if rows == [] then []
    else if Matches(rows[0], q) then [rows[0]] + Query(rows[1..], q)
    else Query(rows[1..], q)
  }

  /** countByStatus: the number of rows with that status. */
  function CountByStatus(rows: seq<InvoiceRow>, status: InvoiceStatus): (n: nat)
    ensures n <= |rows|
  {
    if rows == [] then 0
    else (if rows[0].status == Some(status) then 1 else 0) + CountByStatus(rows[1..], status)
  }


  /** The sum of two partial SUMs. */
  function CombineSums(a: Option<real>, b: Option<real>): Option<real> {
    if a.None? then b else if b.None? then a else Some(a.value + b.value)
  }

  /**
   * sumTotalByStatusAndDateRange: the SUM of totalAmount over the rows with
   * the status and an issue date in the range. SUM skips NULLs, and is NULL
   * when no value is summed.
   */
  function SumTotal(rows: seq<InvoiceRow>, status: InvoiceStatus, startDate: Date, endDate: Date): Option<real> {
    if rows == [] then None
    else
      var rest := SumTotal(rows[1..], status, startDate, endDate);
      if Matches(rows[0], WithStatusIssuedBetween(status, startDate, endDate)) && rows[0].totalAmount.Some? then
        CombineSums(Some(rows[0].totalAmount.value), rest)
      else rest
  }

  /** A row is returned exactly when it is in the table and satisfies the query. */
  lemma {:induction false} QueryMembers(rows: seq<InvoiceRow>, q: InvoiceQuery)
    ensures forall r :: r in Query(rows, q) <==> r in rows && Matches(r, q)
  {
    if rows != [] {
      QueryMembers(rows[1..], q);
      assert rows == [rows[0]] + rows[1..];
    }
  }

  /** Queries keep table order: querying two parts of the table and concatenating is querying the whole. */
  lemma {:induction false} QueryAppend(a: seq<InvoiceRow>, b: seq<InvoiceRow>, q: InvoiceQuery)
    ensures Query(a + b, q) == Query(a, q) + Query(b, q)
  {
    if a == [] {
      assert a + b == b;
    } else {
      assert (a + b)[0] == a[0] && (a + b)[1..] == a[1..] + b;
      QueryAppend(a[1..], b, q);
      if Matches(a[0], q) {
        var head, rest := [a[0]], Query(a[1..], q);
        assert (head + rest) + Query(b, q) == head + (rest + Query(b, q));
      }
    }
  }

  /** countByStatus is the length of the corresponding selection. */
  lemma {:induction false} CountIsQueryLength(rows: seq<InvoiceRow>, status: InvoiceStatus)
    ensures CountByStatus(rows, status) == |Query(rows, WithStatus(status))|
  {
    if rows != [] {
      CountIsQueryLength(rows[1..], status);
    }
  }

  /** The rows without a status. */
  function CountWithoutStatus(rows: seq<InvoiceRow>): (n: nat)
    ensures n <= |rows|
  {
    if rows == [] then 0 else (if rows[0].status.None? then 1 else 0) + CountWithoutStatus(rows[1..])
  }

  /** The five status counts and the rows without a status together account for every row. */
  lemma {:induction false} CountsPartitionTable(rows: seq<InvoiceRow>)
    ensures CountByStatus(rows, Draft) + CountByStatus(rows, Sent) + CountByStatus(rows, Paid)
            + CountByStatus(rows, Overdue) + CountByStatus(rows, Cancelled) + CountWithoutStatus(rows) == |rows|
  {
    if rows != [] {
      CountsPartitionTable(rows[1..]);
      match rows[0].status
      case None =>
      case Some(Draft) =>
      case Some(Sent) =>
      case Some(Paid) =>
      case Some(Overdue) =>
      case Some(Cancelled) =>
    }
  }

  /** The sum is NULL exactly when no selected row has a total. */
  lemma {:induction false} SumTotalNullIffNothingSummed(rows: seq<InvoiceRow>, status: InvoiceStatus, startDate: Date, endDate: Date)
    ensures SumTotal(rows, status, startDate, endDate).None? <==>
      forall i :: 0 <= i < |rows| && Matches(rows[i], WithStatusIssuedBetween(status, startDate, endDate)) ==> rows[i].totalAmount.None?
  {
    if rows != [] {
      SumTotalNullIffNothingSummed(rows[1..], status, startDate, endDate);
      assert forall i :: 1 <= i < |rows| ==> rows[i] == rows[1..][i - 1];
    }
  }

  /** The sum over a table split in two is the combination of the sums over the parts. */
  lemma {:induction false} SumTotalAppend(a: seq<InvoiceRow>, b: seq<InvoiceRow>, status: InvoiceStatus, startDate: Date, endDate: Date)
    ensures SumTotal(a + b, status, startDate, endDate)
            == CombineSums(SumTotal(a, status, startDate, endDate), SumTotal(b, status, startDate, endDate))
  {
    if a == [] {
      assert a + b == b;
    } else {
      assert (a + b)[0] == a[0] && (a + b)[1..] == a[1..] + b;
      SumTotalAppend(a[1..], b, status, startDate, endDate);
    }
  }

  /** With non-negative totals the sum, when there is one, is non-negative. */
  lemma {:induction false} SumTotalNonNegative(rows: seq<InvoiceRow>, status: InvoiceStatus, startDate: Date, endDate: Date)
    requires forall i :: 0 <= i < |rows| ==> rows[i].totalAmount.GetOr(0.0) >= 0.0
    ensures SumTotal(rows, status, startDate, endDate).GetOr(0.0) >= 0.0
  {
    if rows != [] {
      assert forall i :: 0 <= i < |rows| - 1 ==> rows[1..][i] == rows[i + 1];
      SumTotalNonNegative(rows[1..], status, startDate, endDate);
    }
  }

  /** Only a SENT invoice is ever overdue: a paid, drafted or cancelled one is not, however late, and neither is one due today. */
  lemma OverdueNeedsSentAndPastDue(row: InvoiceRow, today: Date)
    ensures Matches(row, OverdueOn(today)) <==> row.status == Some(Sent) && row.dueDate.Some? && row.dueDate.value < today
    ensures row.dueDate == Some(today) ==> !Matches(row, OverdueOn(today))
    ensures row.status != Some(Sent) ==> !Matches(row, OverdueOn(today))
  {
  }

  /** Overdue on a day is due between any earlier start and the day before, for SENT invoices due no earlier than that start. */
  lemma OverdueIsDueBeforeToday(row: InvoiceRow, start: Date, today: Date)
    requires row.dueDate.Some? && start <= row.dueDate.value
    ensures Matches(row, OverdueOn(today)) <==> Matches(row, DueBetween(start, today - 1))
  {
  }

  /** The date ranges are inclusive at both ends, and an empty range selects nothing. */
  lemma RangesInclusive(row: InvoiceRow, startDate: Date, endDate: Date)
    ensures row.issueDate == Some(startDate) && startDate <= endDate ==> Matches(row, IssuedBetween(startDate, endDate))
    ensures row.issueDate == Some(endDate) && startDate <= endDate ==> Matches(row, IssuedBetween(startDate, endDate))
    ensures row.status == Some(Sent) && row.dueDate == Some(endDate) && startDate <= endDate ==> Matches(row, DueBetween(startDate, endDate))
    ensures endDate < startDate ==> !Matches(row, IssuedBetween(startDate, endDate)) && !Matches(row, DueBetween(startDate, endDate))
  {
  }
}
