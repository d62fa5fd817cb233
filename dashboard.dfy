/**
 * The dashboard's pipeline end to end: the sheet is filtered by the
 * operator's period and courier, and the headline figures, the on-screen
 * day table and the PDF's day walk are all computed from the same filtered
 * rows. The lemmas here state how those views agree.
 */
module Dashboard {
  import opened Records
  import opened Filtering
  import opened Zones
  import opened Metrics
  import opened DayGrouping
  import opened PdfReport
  import opened ScreenSubtotals

  /** The loaded sheet: which optional columns it has, and its rows. */
  datatype Sheet = Sheet(cols: Columns, rows: seq<Record>)

  /** The window the filter uses, given the picker and the clock. */
  function ActiveWindow(sheet: Sheet, input: DateInput, now: int): Window {
    ResolveWindow(input, DefaultWindow(sheet.cols, sheet.rows, now))
  }

  /** The rows every view is computed from. */
  function FilteredRows(sheet: Sheet, input: DateInput, selected: string, now: int): seq<Record> {
    Filter(sheet.cols, ActiveWindow(sheet, input, now), selected, sheet.rows)
  }

  /**
   * With a date column, the PDF's check-in and money totals (which the
   * report method returns as the count and money of the dated rows) are
   * the headline deliveries and amount.
   */
  lemma ReportAgreesWithHeadline(sheet: Sheet, input: DateInput, selected: string, now: int)
    requires sheet.cols.date
    ensures var f := FilteredRows(sheet, input, selected, now);
      && |Flatten(ReportGroups(sheet.cols, f))| == Headline(f).deliveries
      && PaymentTotal(Flatten(ReportGroups(sheet.cols, f))) == Headline(f).amount
  {
    var f := FilteredRows(sheet, input, selected, now);
    FilteredRowsAreDated(sheet.cols, ActiveWindow(sheet, input, now), selected, sheet.rows);
    ReportGroupsCover(sheet.cols, f);
  }

  /**
   * The on-screen period line never shows more check-ins than the headline
   * deliveries, shows exactly as many when every filtered row names its
   * courier, and shows the headline amount.
   */
  lemma ScreenAgreesWithHeadline(sheet: Sheet, input: DateInput, selected: string, now: int)
    requires sheet.cols.date && sheet.cols.employee && sheet.cols.payment
    ensures var f := FilteredRows(sheet, input, selected, now);
      var t := OnScreenSubtotals(sheet.cols, f);
      && t.Table?
      && t.totalCheckins <= Headline(f).deliveries
      && (t.totalCheckins == Headline(f).deliveries <==> AllNamed(f))
      && t.totalAmount == Headline(f).amount
  {
    var f := FilteredRows(sheet, input, selected, now);
    FilteredRowsAreDated(sheet.cols, ActiveWindow(sheet, input, now), selected, sheet.rows);
    ScreenTotals(sheet.cols, f);
  }

  lemma {:induction false} FilterTotalKeepsDatedInWindow(cols: Columns, w: Window, rows: seq<Record>)
    requires cols.date
    requires forall r :: r in rows && IsDated(r) ==> w.start <= Time(r) <= w.end
    ensures Filter(cols, w, AllEmployees, rows) == Dated(rows)
  {
    if rows != [] {
      assert rows[0] in rows;
      FilterTotalKeepsDatedInWindow(cols, w, rows[1..]);
    }
  }

  /**
   * When the page opens, the picker holds the calendar days of the sheet's
   * earliest and latest timestamps. With that range and "Total", the
   * filtered rows are exactly the dated rows, in sheet order: the undated
   * rows are the only ones dropped.
   */
  lemma OpeningViewIsDatedRows(sheet: Sheet, now: int)
    requires sheet.cols.date
    ensures FilteredRows(sheet, OpeningInput(sheet.cols, sheet.rows, now), AllEmployees, now) == Dated(sheet.rows)
  {
    var d := DefaultWindow(sheet.cols, sheet.rows, now);
    var w := ActiveWindow(sheet, OpeningInput(sheet.cols, sheet.rows, now), now);
    assert w == DayWindow(DayOf(d.start), DayOf(d.end));
    forall r | r in sheet.rows && IsDated(r) ensures w.start <= Time(r) <= w.end {
      DefaultWindowKeepsEveryDatedRow(sheet.cols, sheet.rows, now, r);
      DayOfMonotone(d.start, Time(r));
      DayOfMonotone(Time(r), d.end);
      DayWindowIsWholeDays(DayOf(d.start), DayOf(d.end), Time(r));
    }
    FilterTotalKeepsDatedInWindow(sheet.cols, w, sheet.rows);
  }

  /**
   * When the picker holds no complete range the window falls back to the
   * sheet's own earliest to latest timestamp. With it and "Total", too,
   * the filtered rows are exactly the dated rows.
   */
  lemma FallbackViewIsDatedRows(sheet: Sheet, now: int)
    requires sheet.cols.date
    ensures FilteredRows(sheet, Incomplete, AllEmployees, now) == Dated(sheet.rows)
  {
    var w := ActiveWindow(sheet, Incomplete, now);
    forall r | r in sheet.rows && IsDated(r) ensures w.start <= Time(r) <= w.end {
      DefaultWindowKeepsEveryDatedRow(sheet.cols, sheet.rows, now, r);
    }
    FilterTotalKeepsDatedInWindow(sheet.cols, w, sheet.rows);
  }

  /** The day number of 1 January 2024. */
  const Jan1: int := 19723

  /* Two deliveries by Ana on 1 January 2024 (fees 25 and 75) and one by Luis on the 2nd. */
  const AnaMorning: Record := Record(Some("Ana"), Some(Jan1 * SecondsPerDay + 10 * 3600), Some(25.0), None, None)
  const AnaAfternoon: Record := Record(Some("Ana"), Some(Jan1 * SecondsPerDay + 15 * 3600), Some(75.0), None, None)
  const LuisMorning: Record := Record(Some("Luis"), Some((Jan1 + 1) * SecondsPerDay + 9 * 3600), Some(25.0), None, None)
  const ExampleSheet: Sheet := Sheet(Columns(true, true, true), [AnaMorning, AnaAfternoon, LuisMorning])

  /** The period 1 January to 1 January, for every courier, keeps Ana's two deliveries. */
  lemma ExampleFilter()
    ensures FilteredRows(ExampleSheet, Picked(Jan1, Jan1), AllEmployees, 0) == [AnaMorning, AnaAfternoon]
  {
    var rows := ExampleSheet.rows;
    var cols := ExampleSheet.cols;
    var w := ActiveWindow(ExampleSheet, Picked(Jan1, Jan1), 0);
    assert w == Window(Jan1 * SecondsPerDay, Jan1 * SecondsPerDay + SecondsPerDay - 1);
    assert Keep(cols, w, AllEmployees, AnaMorning) && Keep(cols, w, AllEmployees, AnaAfternoon);
    assert !Keep(cols, w, AllEmployees, LuisMorning);
    assert Filter(cols, w, AllEmployees, [LuisMorning]) == [] by {
      assert [LuisMorning][1..] == [];
    }
    assert rows[1..] == [AnaAfternoon, LuisMorning] && rows[1..][1..] == [LuisMorning];
    assert Filter(cols, w, AllEmployees, rows[1..]) == [AnaAfternoon];
  }

  /** One delivery in the zone, one outside, 100 collected. */
  lemma ExampleHeadline()
    ensures Headline([AnaMorning, AnaAfternoon]) == Summary(2, 100.0, 1, 1)
  {
    var f := [AnaMorning, AnaAfternoon];
    assert f[1..] == [AnaAfternoon] && [AnaAfternoon][1..] == [];
    assert PaymentTotal([AnaAfternoon]) == 75.0;
    assert CountPayment([AnaAfternoon], WithinFee) == 0;
    assert CountPayment([AnaAfternoon], OutsideFee) == 1;
  }

  /** Both day views show a single day, 1 January, with 2 check-ins and 100. */
  lemma ExampleDays()
    ensures ReportGroups(ExampleSheet.cols, [AnaMorning, AnaAfternoon]) == [DayGroup(Jan1, [AnaMorning, AnaAfternoon])]
    ensures OnScreenSubtotals(ExampleSheet.cols, [AnaMorning, AnaAfternoon]) == Table([ScreenRow(Jan1, 2, 100.0)], 2, 100.0)
  {
    var f := [AnaMorning, AnaAfternoon];
    assert f[1..] == [AnaAfternoon] && [AnaAfternoon][1..] == [];
    assert Dated([AnaAfternoon]) == [AnaAfternoon];
    assert Dated(f) == f;
    assert SortByTime([AnaAfternoon]) == [AnaAfternoon];
    assert SortByTime(f) == f;
    assert DayOf(Time(AnaMorning)) == Jan1 && DayOf(Time(AnaAfternoon)) == Jan1;
    assert GroupByDay([AnaAfternoon]) == [DayGroup(Jan1, [AnaAfternoon])];
    assert GroupByDay(f) == [DayGroup(Jan1, f)];
    assert NamedCount([AnaAfternoon]) == 1;
    assert PaymentTotal([AnaAfternoon]) == 75.0;
    var rs := ScreenRows([DayGroup(Jan1, f)]);
    assert rs == [ScreenRow(Jan1, 2, 100.0)];
    assert rs[1..] == [];
    assert ScreenCheckins(rs) == 2 && ScreenAmounts(rs) == 100.0;
    assert DayGroups(f) == [DayGroup(Jan1, f)];
  }
}
