/**
 * The on-screen "Subtotales por día" table under the filtered detail: one
 * line per calendar day with the number of non-empty courier cells
 * ('Checkins') and the day's money, and a period line adding them up.
 * Unlike the PDF, a day's check-ins count courier names, not rows.
 */
module ScreenSubtotals {
  import opened Records
  import opened DayGrouping

  datatype ScreenRow = ScreenRow(day: int, checkins: nat, amount: real)

  datatype ScreenTable =
    | NotShown                          // the sheet has no date column
    | MissingColumns(names: seq<string>) // the aggregation names a column the sheet lacks
    | Table(days: seq<ScreenRow>, totalCheckins: nat, totalAmount: real)

  /** How many rows have a courier name (pandas' count skips missing cells). */
  function NamedCount(rows: seq<Record>): (n: nat)
    ensures n <= |rows|
  {
    if rows == [] then 0 else (if rows[0].employee.Some? then 1 else 0) + NamedCount(rows[1..])
  }

  predicate AllNamed(rows: seq<Record>) {
    forall r :: r in rows ==> r.employee.Some?
  }

  /** Named rows never outnumber rows, and match them exactly when every row is named. */
  lemma {:induction false} NamedCountBound(rows: seq<Record>)
    ensures NamedCount(rows) <= |rows|
    ensures NamedCount(rows) == |rows| <==> AllNamed(rows)
  {
    if rows != [] {
      NamedCountBound(rows[1..]);
      assert rows[0] in rows;
      assert forall r :: r in rows[1..] ==> r in rows;
      assert forall r :: r in rows ==> r == rows[0] || r in rows[1..];
    }
  }

  lemma {:induction false} NamedCountAppend(a: seq<Record>, b: seq<Record>)
    ensures NamedCount(a + b) == NamedCount(a) + NamedCount(b)
  {
    if a == [] {
      assert a + b == b;
    } else {
      assert (a + b)[0] == a[0] && (a + b)[1..] == a[1..] + b;
      NamedCountAppend(a[1..], b);
    }
  }

  function ScreenRowOf(g: DayGroup): ScreenRow {
    ScreenRow(g.day, NamedCount(g.rows), PaymentTotal(g.rows))
  }

  function ScreenRows(groups: seq<DayGroup>): (rs: seq<ScreenRow>)
    ensures |rs| == |groups|
    ensures forall i :: 0 <= i < |groups| ==> rs[i] == ScreenRowOf(groups[i])
  {
    if groups == [] then [] else [ScreenRowOf(groups[0])] + ScreenRows(groups[1..])
  }

  function ScreenCheckins(rs: seq<ScreenRow>): nat {
    if rs == [] then 0 else rs[0].checkins + ScreenCheckins(rs[1..])
  }

  function ScreenAmounts(rs: seq<ScreenRow>): real {
    if rs == [] then 0.0 else rs[0].amount + ScreenAmounts(rs[1..])
  }

  /**
   * The table for the filtered rows: not shown without a date column; an
   * error naming the missing columns when the courier or the payment
   * column is absent (the aggregation refers to both); otherwise one line
   * per day group with the period line.
   */
  function OnScreenSubtotals(cols: Columns, rows: seq<Record>): (t: ScreenTable)
    ensures t.NotShown? <==> !cols.date
    ensures t.MissingColumns? <==> cols.date && (!cols.employee || !cols.payment)
    ensures t.MissingColumns? ==> ("Empleado" in t.names <==> !cols.employee) && ("Pago" in t.names <==> !cols.payment)
    ensures t.Table? ==> |t.days| == |DayGroups(rows)|
  {
    if !cols.date then NotShown
    else if !cols.employee || !cols.payment then
      MissingColumns((if cols.employee then [] else ["Empleado"]) + (if cols.payment then [] else ["Pago"]))
    else
      var days := ScreenRows(DayGroups(rows));
      Table(days, ScreenCheckins(days), ScreenAmounts(days))
  }

  /** The day lines add up to the named rows and the money of all the rows. */
  lemma {:induction false} ScreenSumsFlatten(groups: seq<DayGroup>)
    ensures ScreenCheckins(ScreenRows(groups)) == NamedCount(Flatten(groups))
    ensures ScreenAmounts(ScreenRows(groups)) == PaymentTotal(Flatten(groups))
  {
    if groups == [] {
    } else {
      ScreenSumsFlatten(groups[1..]);
      assert ScreenRows(groups)[1..] == ScreenRows(groups[1..]);
      NamedCountAppend(groups[0].rows, Flatten(groups[1..]));
      PaymentTotalAppend(groups[0].rows, Flatten(groups[1..]));
    }
  }

  lemma {:induction false} NamedCountInsert(r: Record, s: seq<Record>)
    ensures NamedCount(InsertByTime(r, s)) == (if r.employee.Some? then 1 else 0) + NamedCount(s)
  {
    if s != [] && Time(r) > Time(s[0]) {
      NamedCountInsert(r, s[1..]);
      var rest := InsertByTime(r, s[1..]);
      assert ([s[0]] + rest)[1..] == rest;
    }
  }

  /** Putting rows in timestamp order does not change how many name their courier. */
  lemma {:induction false} NamedCountSort(rows: seq<Record>)
    ensures NamedCount(SortByTime(rows)) == NamedCount(rows)
  {
    if rows != [] {
      NamedCountSort(rows[1..]);
      NamedCountInsert(rows[0], SortByTime(rows[1..]));
    }
  }

  /**
   * When the table is shown: its days strictly ascend; its check-in total
   * is at most the number of dated rows, equal to it exactly when every
   * dated row has a courier name; and its money total is that of the dated
   * rows.
   */
  lemma ScreenTotals(cols: Columns, rows: seq<Record>)
    requires cols.date && cols.employee && cols.payment
    ensures OnScreenSubtotals(cols, rows).Table?
    ensures var t := OnScreenSubtotals(cols, rows);
      && (forall i, j :: 0 <= i < j < |t.days| ==> t.days[i].day < t.days[j].day)
      && t.totalCheckins <= |Dated(rows)|
      && (t.totalCheckins == |Dated(rows)| <==> AllNamed(Dated(rows)))
      && t.totalAmount == PaymentTotal(Dated(rows))
  {
    var groups := DayGroups(rows);
    DayGroupsCover(rows);
    DayGroupsOrdered(rows);
    ScreenSumsFlatten(groups);
    SortIsSorted(Dated(rows));
    GroupByDayFlattens(SortByTime(Dated(rows)));
    NamedCountSort(Dated(rows));
    NamedCountBound(Dated(rows));
  }
}
