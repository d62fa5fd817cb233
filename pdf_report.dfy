/**
 * The day-subtotal walk of the PDF report: the filtered rows are ordered
 * by timestamp and grouped by calendar day; each day gets a subtotal line
 * (its number of rows and its money) and the walk accumulates the period's
 * check-in count and general total.
 */
module PdfReport {
  import opened Records
  import opened DayGrouping

  /** One "Subtotal del día" line: the day, how many rows it has, and their money. */
  datatype DaySubtotal = DaySubtotal(day: int, checkins: nat, amount: real)

  /**
   * The day key of a row ('__FechaD__'): its calendar day when the sheet has
   * a date column and the row a timestamp; otherwise the key is empty.
   */
  function DayKey(cols: Columns, r: Record): Option<int> {
    if cols.date && r.timestamp.Some? then Some(DayOf(r.timestamp.value)) else None
  }

  /** The rows whose day key is present, in order: grouping drops the others. */
  function Keyed(cols: Columns, rows: seq<Record>): (out: seq<Record>)
    ensures AllDated(out)
    ensures forall r :: r in out <==> r in rows && DayKey(cols, r).Some?
  {
    if rows == [] then []
    else if DayKey(cols, rows[0]).Some? then [rows[0]] + Keyed(cols, rows[1..])
    else Keyed(cols, rows[1..])
  }

  /** With a date column the keyed rows are the dated rows; without one there are none. */
  lemma {:induction false} KeyedRows(cols: Columns, rows: seq<Record>)
    ensures Keyed(cols, rows) == if cols.date then Dated(rows) else []
  {
    if rows != [] {
      KeyedRows(cols, rows[1..]);
    }
  }

  /**
   * The groups the report walks: the keyed rows in timestamp order, split
   * by day. With a date column these are the day groups the screen uses.
   */
  function ReportGroups(cols: Columns, rows: seq<Record>): (groups: seq<DayGroup>)
    ensures cols.date ==> groups == DayGroups(rows)
  {
    var keyed := Keyed(cols, rows);
    SortIsSorted(keyed);
    KeyedRows(cols, rows);
    GroupByDay(SortByTime(keyed))
  }

  function Subtotal(g: DayGroup): DaySubtotal {
    DaySubtotal(g.day, |g.rows|, PaymentTotal(g.rows))
  }

  function SumCheckins(days: seq<DaySubtotal>): nat {
    if days == [] then 0 else SumCheckins(days[..|days| - 1]) + days[|days| - 1].checkins
  }

  function SumAmounts(days: seq<DaySubtotal>): real {
    if days == [] then 0.0 else SumAmounts(days[..|days| - 1]) + days[|days| - 1].amount
  }

  /** The report's groups hold every dated row and its money, and nothing else. */
  lemma ReportGroupsCover(cols: Columns, rows: seq<Record>)
    ensures |Flatten(ReportGroups(cols, rows))| == if cols.date then |Dated(rows)| else 0
    ensures PaymentTotal(Flatten(ReportGroups(cols, rows))) == if cols.date then PaymentTotal(Dated(rows)) else 0.0
  {
    if cols.date {
      DayGroupsCover(rows);
    } else {
      ReportWithoutDateColumnIsEmpty(cols, rows);
    }
  }

  /** The report's groups are non-empty days in strictly ascending order. */
  lemma ReportGroupsOrdered(cols: Columns, rows: seq<Record>)
    ensures forall g :: g in ReportGroups(cols, rows) ==> GroupWellFormed(g)
    ensures DaysAscending(ReportGroups(cols, rows))
  {
    if cols.date {
      DayGroupsOrdered(rows);
    } else {
      ReportWithoutDateColumnIsEmpty(cols, rows);
    }
  }

  /**
   * The report for the filtered rows: orders and groups them by day, then
   * walks the days. The subtotals are listed in strictly ascending date
   * order, each for a non-empty day, they add up to the totals, and the
   * totals count every dated row and its money (missing payments adding 0);
   * a sheet without a date column yields no day at all.
   */
  method ReportTotals(cols: Columns, rows: seq<Record>)
    returns (days: seq<DaySubtotal>, totalCheckins: nat, totalGeneral: real)
    ensures |days| == |ReportGroups(cols, rows)|
    ensures forall i :: 0 <= i < |days| ==> days[i] == Subtotal(ReportGroups(cols, rows)[i])
    ensures forall i, j :: 0 <= i < j < |days| ==> days[i].day < days[j].day
    ensures forall i :: 0 <= i < |days| ==> days[i].checkins > 0
    ensures totalCheckins == SumCheckins(days) && totalGeneral == SumAmounts(days)
    ensures totalCheckins == (if cols.date then |Dated(rows)| else 0)
    ensures totalGeneral == (if cols.date then PaymentTotal(Dated(rows)) else 0.0)
  {
    var groups := ReportGroups(cols, rows);
    days, totalCheckins, totalGeneral := WalkDays(groups);
    ReportGroupsCover(cols, rows);
    ReportGroupsOrdered(cols, rows);
    SubtotalsFollowGroups(groups, days);
  }

  /**
   * Walks the day groups in order, printing one subtotal per day and
   * accumulating the check-in count and the general total: one subtotal
   * per group, and totals that are both the sums of the subtotals and the
   * number and money of all the grouped rows.
   */
  method WalkDays(groups: seq<DayGroup>)
    returns (days: seq<DaySubtotal>, totalCheckins: nat, totalGeneral: real)
    ensures |days| == |groups|
    ensures forall i :: 0 <= i < |days| ==> days[i] == Subtotal(groups[i])
    ensures totalCheckins == SumCheckins(days) == |Flatten(groups)|
    ensures totalGeneral == SumAmounts(days) == PaymentTotal(Flatten(groups))
  {
    days, totalCheckins, totalGeneral := [], 0, 0.0;
    var i := 0;
    while i < |groups|
      invariant 0 <= i <= |groups|
      invariant |days| == i
      invariant forall k :: 0 <= k < i ==> days[k] == Subtotal(groups[k])
      invariant totalCheckins == SumCheckins(days) == |Flatten(groups[..i])|
      invariant totalGeneral == SumAmounts(days) == PaymentTotal(Flatten(groups[..i]))
    {
      var group := groups[i];
      var checkinsDay := |group.rows|;
      var amountDay := PaymentTotal(group.rows);
      FlattenPrefixStep(groups, i);
      SumsStep(days, DaySubtotal(group.day, checkinsDay, amountDay));
      days := days + [DaySubtotal(group.day, checkinsDay, amountDay)];
      totalGeneral := totalGeneral + amountDay;
      totalCheckins := totalCheckins + checkinsDay;
      i := i + 1;
    }
    assert groups[..i] == groups;
  }

  lemma FlattenPrefixStep(groups: seq<DayGroup>, i: nat)
    requires i < |groups|
    ensures |Flatten(groups[..i + 1])| == |Flatten(groups[..i])| + |groups[i].rows|
    ensures PaymentTotal(Flatten(groups[..i + 1])) == PaymentTotal(Flatten(groups[..i])) + PaymentTotal(groups[i].rows)
  {
    assert groups[..i + 1] == groups[..i] + [groups[i]];
    FlattenAppend(groups[..i], groups[i]);
    PaymentTotalAppend(Flatten(groups[..i]), groups[i].rows);
  }

  lemma SumsStep(days: seq<DaySubtotal>, d: DaySubtotal)
    ensures SumCheckins(days + [d]) == SumCheckins(days) + d.checkins
    ensures SumAmounts(days + [d]) == SumAmounts(days) + d.amount
  {
    assert (days + [d])[..|days|] == days;
  }

  lemma SubtotalsFollowGroups(groups: seq<DayGroup>, days: seq<DaySubtotal>)
    requires |days| == |groups|
    requires forall k :: 0 <= k < |groups| ==> days[k] == Subtotal(groups[k])
    requires forall g :: g in groups ==> GroupWellFormed(g)
    requires DaysAscending(groups)
    ensures forall i, j :: 0 <= i < j < |days| ==> days[i].day < days[j].day
    ensures forall i :: 0 <= i < |days| ==> days[i].checkins > 0
  {
    forall i | 0 <= i < |days| ensures days[i].checkins > 0 {
      assert groups[i] in groups;
    }
  }

  /**
   * A sheet without a date column gets a report with no day, however many
   * rows it has: every day key is empty and grouping drops every row.
   */
  lemma ReportWithoutDateColumnIsEmpty(cols: Columns, rows: seq<Record>)
    requires !cols.date
    ensures ReportGroups(cols, rows) == []
  {
    KeyedRows(cols, rows);
  }
}
