/**
 * The period and courier filter applied to the sheet before anything is
 * shown: a date window built from the operator's date picker (or from the
 * sheet's observed dates when the picker holds no complete range) and an
 * exact courier match, with "Total" meaning every courier.
 */
module Filtering {
  import opened Records

  /** The courier-selector entry that means "every courier". */
  const AllEmployees: string := "Total"

  /** An inclusive window of timestamps, in seconds. */
  datatype Window = Window(start: int, end: int)

  /** What the date picker holds: a complete (start day, end day) pair, or not. */
  datatype DateInput = Picked(startDay: int, endDay: int) | Incomplete

  /** From midnight of the start day to the last second (23:59:59) of the end day. */
  function DayWindow(startDay: int, endDay: int): (w: Window)
    ensures DayOf(w.start) == startDay && w.start % SecondsPerDay == 0
    ensures DayOf(w.end) == endDay && w.end % SecondsPerDay == SecondsPerDay - 1
  {
    Window(startDay * SecondsPerDay, endDay * SecondsPerDay + SecondsPerDay - 1)
  }

  lemma DayWindowIsWholeDays(startDay: int, endDay: int, t: int)
    ensures DayWindow(startDay, endDay).start <= t <= DayWindow(startDay, endDay).end
            <==> startDay <= DayOf(t) <= endDay
  {
    var q, s := t / SecondsPerDay, t % SecondsPerDay;
    assert t == q * SecondsPerDay + s && 0 <= s < SecondsPerDay;
    if startDay <= q {
      assert startDay * SecondsPerDay <= q * SecondsPerDay;
    } else {
      assert q * SecondsPerDay + SecondsPerDay <= startDay * SecondsPerDay;
    }
    if q <= endDay {
      assert q * SecondsPerDay <= endDay * SecondsPerDay;
    } else {
      assert (endDay + 1) * SecondsPerDay <= q * SecondsPerDay;
    }
  }

  /** The last second of the end day is inside the window and the next second is not. */
  lemma DayWindowBoundary(startDay: int, endDay: int)
    requires startDay <= endDay
    ensures InWindow(Some(endDay * SecondsPerDay + SecondsPerDay - 1), DayWindow(startDay, endDay))
    ensures !InWindow(Some(endDay * SecondsPerDay + SecondsPerDay), DayWindow(startDay, endDay))
  {
    assert startDay * SecondsPerDay <= endDay * SecondsPerDay;
  }

  /** The timestamps of the dated rows, in row order. */
  function Times(rows: seq<Record>): (ts: seq<int>)
    ensures |ts| <= |rows|
    ensures forall r :: r in rows && IsDated(r) ==> Time(r) in ts
    ensures forall t :: t in ts ==> exists r :: r in rows && IsDated(r) && Time(r) == t
  {
    if rows == [] then []
    else if IsDated(rows[0]) then [Time(rows[0])] + Times(rows[1..])
    else Times(rows[1..])
  }

  function Earliest(ts: seq<int>): (m: int)
    requires ts != []
    ensures m in ts
    ensures forall t :: t in ts ==> m <= t
  {
    if |ts| == 1 then ts[0]
    else
      assert forall t :: t in ts ==> t == ts[0] || t in ts[1..];
      var rest := Earliest(ts[1..]);
      if ts[0] <= rest then ts[0] else rest
  }

  function Latest(ts: seq<int>): (m: int)
    requires ts != []
    ensures m in ts
    ensures forall t :: t in ts ==> t <= m
  {
    if |ts| == 1 then ts[0]
    else
      assert forall t :: t in ts ==> t == ts[0] || t in ts[1..];
      var rest := Latest(ts[1..]);
      if ts[0] >= rest then ts[0] else rest
  }

  /**
   * The sheet's observed range: its earliest and latest timestamps when it
   * has any, otherwise the last thirty days up to `now` (the clock is a
   * parameter). The picker opens on the days of this range, and the filter
   * falls back to it when the picker holds no complete range.
   */
  function DefaultWindow(cols: Columns, rows: seq<Record>, now: int): (w: Window)
    ensures cols.date && Times(rows) != [] ==>
              && w.start in Times(rows) && w.end in Times(rows)
              && forall t :: t in Times(rows) ==> w.start <= t <= w.end
    ensures !(cols.date && Times(rows) != []) ==> w == Window(now - 30 * SecondsPerDay, now)
    ensures w.start <= w.end
  {
    var ts := Times(rows);
    if cols.date && ts != [] then Window(Earliest(ts), Latest(ts))
    else Window(now - 30 * SecondsPerDay, now)
  }

  /**
   * The window the filter applies: whole days from the start day to the end
   * day when the picker holds a complete range, otherwise the fallback.
   */
  function ResolveWindow(input: DateInput, fallback: Window): (w: Window)
    ensures input.Incomplete? ==> w == fallback
    ensures input.Picked? ==>
              && DayOf(w.start) == input.startDay && w.start % SecondsPerDay == 0
              && DayOf(w.end) == input.endDay && w.end % SecondsPerDay == SecondsPerDay - 1
  {
    match input
    case Picked(startDay, endDay) => DayWindow(startDay, endDay)
    case Incomplete => fallback
  }

  /** A missing timestamp compares false against both bounds. */
  predicate InWindow(t: Option<int>, w: Window) {
    t.Some? && w.start <= t.value <= w.end
  }

  /** The row mask: the date condition when the sheet has a date column, and the courier condition. */
  predicate Keep(cols: Columns, w: Window, selected: string, r: Record)
    ensures cols.date && Keep(cols, w, selected, r) ==> r.timestamp.Some? && w.start <= r.timestamp.value <= w.end
    ensures cols.employee && selected != AllEmployees && Keep(cols, w, selected, r) ==> r.employee == Some(selected)
    ensures !cols.date && (selected == AllEmployees || !cols.employee) ==> Keep(cols, w, selected, r)
  {
    && (cols.date ==> InWindow(r.timestamp, w))
    && (selected == AllEmployees || !cols.employee || r.employee == Some(selected))
  }

  /** The rows the mask keeps, in sheet order, each unchanged. */
  function Filter(cols: Columns, w: Window, selected: string, rows: seq<Record>): (out: seq<Record>)
    ensures |out| <= |rows|
    ensures forall r :: r in out ==> r in rows && Keep(cols, w, selected, r)
    ensures forall r :: r in rows && Keep(cols, w, selected, r) ==> r in out
  {
    if rows == [] then []
    else
      var rest := Filter(cols, w, selected, rows[1..]);
      if Keep(cols, w, selected, rows[0]) then [rows[0]] + rest else rest
  }

  /** Each row that passes the mask is kept as often as it occurs in the sheet. */
  lemma {:induction false} FilterKeepsMultiplicity(cols: Columns, w: Window, selected: string, rows: seq<Record>)
    ensures forall r :: multiset(Filter(cols, w, selected, rows))[r] == if Keep(cols, w, selected, r) then multiset(rows)[r] else 0
  {
    if rows != [] {
      FilterKeepsMultiplicity(cols, w, selected, rows[1..]);
      assert rows == [rows[0]] + rows[1..];
      assert multiset(rows) == multiset{rows[0]} + multiset(rows[1..]);
    }
  }

  lemma {:induction false} FilterIsSubsequence(cols: Columns, w: Window, selected: string, rows: seq<Record>)
    ensures IsSubsequence(Filter(cols, w, selected, rows), rows)
  {
    if rows != [] {
      FilterIsSubsequence(cols, w, selected, rows[1..]);
      var out := Filter(cols, w, selected, rows);
      if Keep(cols, w, selected, rows[0]) {
        assert out[0] == rows[0] && out[1..] == Filter(cols, w, selected, rows[1..]);
      }
    }
  }

  /** Selecting "Total" applies the date condition alone. */
  lemma {:induction false} FilterTotalIsDateOnly(cols: Columns, w: Window, rows: seq<Record>)
    ensures Filter(cols, w, AllEmployees, rows) == Filter(cols.(employee := false), w, AllEmployees, rows)
    ensures forall r :: r in Filter(cols, w, AllEmployees, rows) <==> r in rows && (cols.date ==> InWindow(r.timestamp, w))
  {
    if rows != [] {
      FilterTotalIsDateOnly(cols, w, rows[1..]);
    }
  }

  /** While the sheet has a date column, every kept row is dated and inside the window. */
  lemma FilteredRowsAreDated(cols: Columns, w: Window, selected: string, rows: seq<Record>)
    requires cols.date
    ensures AllDated(Filter(cols, w, selected, rows))
    ensures Dated(Filter(cols, w, selected, rows)) == Filter(cols, w, selected, rows)
    ensures forall r :: r in Filter(cols, w, selected, rows) ==> w.start <= Time(r) <= w.end
  {
    DatedOfAllDated(Filter(cols, w, selected, rows));
  }

  lemma {:induction false} FilterIdempotent(cols: Columns, w: Window, selected: string, rows: seq<Record>)
    ensures Filter(cols, w, selected, Filter(cols, w, selected, rows)) == Filter(cols, w, selected, rows)
  {
    if rows != [] {
      FilterIdempotent(cols, w, selected, rows[1..]);
      var rest := Filter(cols, w, selected, rows[1..]);
      if Keep(cols, w, selected, rows[0]) {
        assert ([rows[0]] + rest)[1..] == rest;
      }
    }
  }

  /**
   * With the sheet's own earliest-to-latest window (the fallback when the
   * picker holds no complete range), every dated row passes the date
   * condition and no undated row does.
   */
  lemma DefaultWindowKeepsEveryDatedRow(cols: Columns, rows: seq<Record>, now: int, r: Record)
    requires cols.date && r in rows
    ensures InWindow(r.timestamp, DefaultWindow(cols, rows, now)) <==> IsDated(r)
  {
    if IsDated(r) {
      var ts := Times(rows);
      assert Time(r) in ts;
    }
  }

  /**
   * What the picker holds when the page opens: the calendar days of the
   * two ends of the sheet's observed range (or of the thirty-day fallback).
   */
  function OpeningInput(cols: Columns, rows: seq<Record>, now: int): (input: DateInput)
    ensures input.Picked? && input.startDay <= input.endDay
    ensures cols.date && Times(rows) != [] ==>
              input.startDay == DayOf(Earliest(Times(rows))) && input.endDay == DayOf(Latest(Times(rows)))
  {
    var w := DefaultWindow(cols, rows, now);
    DayOfMonotone(w.start, w.end);
    Picked(DayOf(w.start), DayOf(w.end))
  }
}
