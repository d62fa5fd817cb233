/**
 * Grouping of dated rows by calendar day, as both day-subtotal views do it:
 * the rows are ordered by timestamp and each run of rows sharing a date
 * becomes one group. Groups come out in ascending date order; rows without
 * a timestamp have no group key and belong to no group.
 */
module DayGrouping {
  import opened Records

  predicate SortedByTime(s: seq<Record>) {
    forall i, j :: 0 <= i < j < |s| ==> Time(s[i]) <= Time(s[j])
  }

  /** Places a row before the first row of the sequence that is not earlier than it. */
  function InsertByTime(r: Record, s: seq<Record>): (out: seq<Record>)
    ensures |out| == |s| + 1
    ensures multiset(out) == multiset(s) + multiset{r}
  {
    if s == [] then [r]
    else if Time(r) <= Time(s[0]) then [r] + s
    else
      assert s == [s[0]] + s[1..];
      [s[0]] + InsertByTime(r, s[1..])
  }

  lemma {:induction false} InsertKeepsSorted(r: Record, s: seq<Record>)
    requires SortedByTime(s)
    ensures SortedByTime(InsertByTime(r, s))
    ensures s != [] ==> InsertByTime(r, s)[0] == r || InsertByTime(r, s)[0] == s[0]
  {
    if s != [] && Time(r) > Time(s[0]) {
      InsertKeepsSorted(r, s[1..]);
      var rest := InsertByTime(r, s[1..]);
      var out := [s[0]] + rest;
      assert s[1..] != [] ==> Time(s[0]) <= Time(s[1]);
      forall i, j | 0 <= i < j < |out| ensures Time(out[i]) <= Time(out[j]) {
        if i == 0 {
          assert out[j] in multiset(rest);
          assert out[j] in multiset(s[1..]) + multiset{r};
          if out[j] != r {
            assert out[j] in s[1..];
          }
        }
      }
    }
  }

  /** The rows in ascending timestamp order. */
  function SortByTime(rows: seq<Record>): (s: seq<Record>)
    ensures |s| == |rows|
    ensures multiset(s) == multiset(rows)
  {
    if rows == [] then []
    else
      assert rows == [rows[0]] + rows[1..];
      InsertByTime(rows[0], SortByTime(rows[1..]))
  }

  lemma {:induction false} SortIsSorted(rows: seq<Record>)
    ensures SortedByTime(SortByTime(rows))
    ensures AllDated(rows) ==> AllDated(SortByTime(rows))
  {
    if rows != [] {
      SortIsSorted(rows[1..]);
      InsertKeepsSorted(rows[0], SortByTime(rows[1..]));
    }
    var s := SortByTime(rows);
    assert forall r :: r in s ==> r in multiset(rows);
  }

  lemma {:induction false} PaymentTotalInsert(r: Record, s: seq<Record>)
    ensures PaymentTotal(InsertByTime(r, s)) == PaymentOf(r) + PaymentTotal(s)
  {
    if s != [] && Time(r) > Time(s[0]) {
      PaymentTotalInsert(r, s[1..]);
      var rest := InsertByTime(r, s[1..]);
      assert ([s[0]] + rest)[1..] == rest;
    }
  }

  /** Sorting neither adds nor loses money. */
  lemma {:induction false} PaymentTotalSort(rows: seq<Record>)
    ensures PaymentTotal(SortByTime(rows)) == PaymentTotal(rows)
  {
    if rows != [] {
      PaymentTotalSort(rows[1..]);
      PaymentTotalInsert(rows[0], SortByTime(rows[1..]));
    }
  }

  /** The rows with timestamp t, in their order in s. */
  function AtTime(s: seq<Record>, t: int): seq<Record> {
    if s == [] then [] else (if Time(s[0]) == t then [s[0]] else []) + AtTime(s[1..], t)
  }

  /** Inserting a row puts it before every row already there with the same timestamp. */
  lemma {:induction false} AtTimeInsert(r: Record, s: seq<Record>, t: int)
    ensures AtTime(InsertByTime(r, s), t) == (if Time(r) == t then [r] else []) + AtTime(s, t)
  {
    if s == [] {
      assert [r][1..] == [];
    } else if Time(r) <= Time(s[0]) {
      assert ([r] + s)[1..] == s;
    } else {
      AtTimeInsert(r, s[1..], t);
      var rest := InsertByTime(r, s[1..]);
      assert ([s[0]] + rest)[1..] == rest;
    }
  }

  /** The sort is stable: rows with the same timestamp keep their sheet order. */
  lemma {:induction false} SortStable(rows: seq<Record>, t: int)
    ensures AtTime(SortByTime(rows), t) == AtTime(rows, t)
  {
    if rows != [] {
      SortStable(rows[1..], t);
      AtTimeInsert(rows[0], SortByTime(rows[1..]), t);
    }
  }

  /** The rows of one calendar day. */
  datatype DayGroup = DayGroup(day: int, rows: seq<Record>)

  /** The rows of the groups, one group after another. */
  function Flatten(groups: seq<DayGroup>): seq<Record> {
    if groups == [] then [] else groups[0].rows + Flatten(groups[1..])
  }

  lemma {:induction false} FlattenAppend(groups: seq<DayGroup>, g: DayGroup)
    ensures Flatten(groups + [g]) == Flatten(groups) + g.rows
  {
    if groups == [] {
      assert Flatten([g]) == g.rows + Flatten([]);
    } else {
      assert (groups + [g])[1..] == groups[1..] + [g];
      FlattenAppend(groups[1..], g);
    }
  }

  lemma {:induction false} InFlatten(groups: seq<DayGroup>, r: Record)
    requires r in Flatten(groups)
    ensures exists i :: 0 <= i < |groups| && r in groups[i].rows
  {
    if r !in groups[0].rows {
      InFlatten(groups[1..], r);
      var i :| 0 <= i < |groups[1..]| && r in groups[1..][i].rows;
      assert r in groups[i + 1].rows;
    }
  }

  /** A non-empty group that holds only dated rows of its own day. */
  predicate GroupWellFormed(g: DayGroup) {
    g.rows != [] && forall r :: r in g.rows ==> IsDated(r) && DayOf(Time(r)) == g.day
  }

  /** Strictly ascending days: no day has two groups. */
  predicate DaysAscending(groups: seq<DayGroup>) {
    forall i, j :: 0 <= i < j < |groups| ==> groups[i].day < groups[j].day
  }

  /** Splits time-sorted dated rows into maximal runs of one calendar day. */
  function GroupByDay(s: seq<Record>): (groups: seq<DayGroup>)
    requires AllDated(s) && SortedByTime(s)
    ensures s == [] <==> groups == []
    ensures s != [] ==> groups[0].day == DayOf(Time(s[0]))
  {
    if s == [] then []
    else
      assert s[0] in s;
      var rest := GroupByDay(s[1..]);
      var d := DayOf(Time(s[0]));
      if rest != [] && rest[0].day == d then [DayGroup(d, [s[0]] + rest[0].rows)] + rest[1..]
      else [DayGroup(d, [s[0]])] + rest
  }

  /** The groups hold exactly the rows, in their order. */
  lemma {:induction false} GroupByDayFlattens(s: seq<Record>)
    requires AllDated(s) && SortedByTime(s)
    ensures Flatten(GroupByDay(s)) == s
  {
    if s != [] {
      assert s[0] in s;
      GroupByDayFlattens(s[1..]);
      var rest := GroupByDay(s[1..]);
      var groups := GroupByDay(s);
      if rest != [] && rest[0].day == DayOf(Time(s[0])) {
        assert groups[1..] == rest[1..];
        assert Flatten(rest) == rest[0].rows + Flatten(rest[1..]);
        assert Flatten(groups) == [s[0]] + rest[0].rows + Flatten(rest[1..]);
      } else {
        assert groups[1..] == rest;
      }
      assert s == [s[0]] + s[1..];
    }
  }

  /** Each group is a non-empty run of dated rows of its own day. */
  lemma {:induction false} GroupByDayWellFormed(s: seq<Record>)
    requires AllDated(s) && SortedByTime(s)
    ensures forall g :: g in GroupByDay(s) ==> GroupWellFormed(g)
  {
    if s != [] {
      assert s[0] in s;
      GroupByDayWellFormed(s[1..]);
      var rest := GroupByDay(s[1..]);
      var groups := GroupByDay(s);
      if rest != [] && rest[0].day == DayOf(Time(s[0])) {
        assert rest[0] in rest;
        assert forall g :: g in groups[1..] ==> g in rest;
        assert groups == [groups[0]] + groups[1..];
      } else {
        assert groups == [groups[0]] + rest;
      }
    }
  }

  /** The days of the groups strictly ascend. */
  lemma {:induction false} GroupByDayAscending(s: seq<Record>)
    requires AllDated(s) && SortedByTime(s)
    ensures DaysAscending(GroupByDay(s))
  {
    if s != [] {
      assert s[0] in s;
      GroupByDayAscending(s[1..]);
      var rest := GroupByDay(s[1..]);
      var d := DayOf(Time(s[0]));
      if rest != [] && rest[0].day == d {
        AscendingAfterMerge(rest, DayGroup(d, [s[0]] + rest[0].rows));
      } else {
        if rest != [] {
          DayOfMonotone(Time(s[0]), Time(s[1]));
        }
        AscendingAfterPrepend(rest, DayGroup(d, [s[0]]));
      }
    }
  }

  lemma AscendingAfterMerge(rest: seq<DayGroup>, g: DayGroup)
    requires rest != [] && DaysAscending(rest) && g.day == rest[0].day
    ensures DaysAscending([g] + rest[1..])
  {
    var groups := [g] + rest[1..];
    forall i, j | 0 <= i < j < |groups| ensures groups[i].day < groups[j].day {
      assert groups[j] == rest[j];
      assert groups[i].day == rest[i].day;
    }
  }

  lemma AscendingAfterPrepend(rest: seq<DayGroup>, g: DayGroup)
    requires DaysAscending(rest) && (rest != [] ==> g.day < rest[0].day)
    ensures DaysAscending([g] + rest)
  {
    var groups := [g] + rest;
    forall i, j | 0 <= i < j < |groups| ensures groups[i].day < groups[j].day {
      assert groups[j] == rest[j - 1];
      if i > 0 {
        assert groups[i] == rest[i - 1];
      } else if j > 1 {
        assert rest[0].day < rest[j - 1].day;
      }
    }
  }

  /** Every dated row lands in exactly one day group, the one of its own day. */
  lemma RowInExactlyOneGroup(s: seq<Record>, r: Record)
    requires AllDated(s) && SortedByTime(s) && r in s
    ensures exists i :: 0 <= i < |GroupByDay(s)| && r in GroupByDay(s)[i].rows
    ensures forall i :: 0 <= i < |GroupByDay(s)| && r in GroupByDay(s)[i].rows ==>
              GroupByDay(s)[i].day == DayOf(Time(r))
    ensures forall i, j ::
              (0 <= i < |GroupByDay(s)| && 0 <= j < |GroupByDay(s)| &&
               r in GroupByDay(s)[i].rows && r in GroupByDay(s)[j].rows) ==> i == j
  {
    var groups := GroupByDay(s);
    GroupByDayFlattens(s);
    GroupByDayWellFormed(s);
    GroupByDayAscending(s);
    InFlatten(groups, r);
    assert forall i :: 0 <= i < |groups| ==> groups[i] in groups;
  }

  /**
   * The day groups of a set of rows: the dated rows in timestamp order,
   * split by day. Undated rows have no group key and are dropped.
   */
  function DayGroups(rows: seq<Record>): (groups: seq<DayGroup>)
    ensures groups == [] <==> Dated(rows) == []
  {
    SortIsSorted(Dated(rows));
    GroupByDay(SortByTime(Dated(rows)))
  }

  /** The day groups hold every dated row and its money, and nothing else. */
  lemma DayGroupsCover(rows: seq<Record>)
    ensures |Flatten(DayGroups(rows))| == |Dated(rows)|
    ensures PaymentTotal(Flatten(DayGroups(rows))) == PaymentTotal(Dated(rows))
    ensures multiset(Flatten(DayGroups(rows))) == multiset(Dated(rows))
  {
    SortIsSorted(Dated(rows));
    GroupByDayFlattens(SortByTime(Dated(rows)));
    PaymentTotalSort(Dated(rows));
  }

  /** The day groups are non-empty days in strictly ascending order. */
  lemma DayGroupsOrdered(rows: seq<Record>)
    ensures forall g :: g in DayGroups(rows) ==> GroupWellFormed(g)
    ensures DaysAscending(DayGroups(rows))
  {
    SortIsSorted(Dated(rows));
    GroupByDayWellFormed(SortByTime(Dated(rows)));
    GroupByDayAscending(SortByTime(Dated(rows)));
  }
}
