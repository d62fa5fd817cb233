/**
 * The typed delivery rows ("check-ins") of the courier sheet, as they stand
 * after loading: every recognised column already coerced to its type, and
 * rows that were empty in every column already dropped.
 */
module Records {

  datatype Option<+T> = None | Some(value: T)

  /** Seconds in one calendar day; timestamps are naive local seconds. */
  const SecondsPerDay: int := 86400

  /**
   * One row of the sheet. A field is None when the cell failed to parse,
   * was empty, or its column is missing from the sheet.
   */
  datatype Record = Record(
    employee: Option<string>,   // 'Empleado'
    timestamp: Option<int>,     // 'Fecha de llenar', in seconds
    payment: Option<real>,      // 'Pago'
    latitude: Option<real>,     // 'Latitud'
    longitude: Option<real>)    // 'Longitud'

  /**
   * Which optional columns the sheet carries. A missing 'Latitud' or
   * 'Longitud' column behaves exactly like a column of empty cells, so it
   * is not recorded. A missing 'Fecha de llenar', 'Empleado' or 'Pago'
   * column is recorded: the filter, the day grouping and the on-screen
   * table each test for one of them by name.
   */
  datatype Columns = Columns(date: bool, employee: bool, payment: bool)

  /** The rows hold no value in a column the sheet does not carry. */
  predicate Conforms(cols: Columns, rows: seq<Record>) {
    && (!cols.date ==> forall r :: r in rows ==> r.timestamp.None?)
    && (!cols.employee ==> forall r :: r in rows ==> r.employee.None?)
    && (!cols.payment ==> forall r :: r in rows ==> r.payment.None?)
  }

  /** The calendar day (days since the epoch) of a timestamp: its date part. */
  function DayOf(t: int): int {
    t / SecondsPerDay
  }

  lemma DayOfMonotone(t: int, u: int)
    requires t <= u
    ensures DayOf(t) <= DayOf(u)
  {
  }

  predicate IsDated(r: Record) {
    r.timestamp.Some?
  }

  predicate AllDated(rows: seq<Record>) {
    forall r :: r in rows ==> IsDated(r)
  }

  /** The timestamp of a row; only ever asked of dated rows (0 stands in otherwise). */
  function Time(r: Record): int {
    if r.timestamp.Some? then r.timestamp.value else 0
  }

  /** What a row adds to a money sum: pandas' sum skips missing amounts. */
  function PaymentOf(r: Record): real {
    if r.payment.Some? then r.payment.value else 0.0
  }

  /** The sum of the present payments of the rows. */
  function PaymentTotal(rows: seq<Record>): real {
    if rows == [] then 0.0 else PaymentOf(rows[0]) + PaymentTotal(rows[1..])
  }

  /**
   * Rows that carry no payment sum to 0, and rows whose payments are all
   * non-negative never sum below 0.
   */
  lemma {:induction false} PaymentTotalBounds(rows: seq<Record>)
    ensures (forall r :: r in rows ==> r.payment.None?) ==> PaymentTotal(rows) == 0.0
    ensures (forall r :: r in rows ==> PaymentOf(r) >= 0.0) ==> PaymentTotal(rows) >= 0.0
  {
    if rows != [] {
      PaymentTotalBounds(rows[1..]);
      assert rows[0] in rows;
      assert forall r :: r in rows[1..] ==> r in rows;
    }
  }

  lemma {:induction false} PaymentTotalAppend(a: seq<Record>, b: seq<Record>)
    ensures PaymentTotal(a + b) == PaymentTotal(a) + PaymentTotal(b)
  {
    if a != [] {
      assert (a + b)[0] == a[0] && (a + b)[1..] == a[1..] + b;
      PaymentTotalAppend(a[1..], b);
      assert PaymentTotal(a + b) == PaymentOf(a[0]) + PaymentTotal(a[1..] + b);
    } else {
      assert a + b == b;
    }
  }

  /** The rows that carry a timestamp, in their original order. */
  function Dated(rows: seq<Record>): (out: seq<Record>)
    ensures |out| <= |rows|
    ensures AllDated(out)
    ensures forall r :: r in out <==> r in rows && IsDated(r)
  {
    if rows == [] then []
    else if IsDated(rows[0]) then [rows[0]] + Dated(rows[1..])
    else Dated(rows[1..])
  }

  /** Every dated row is kept as often as it occurs, in sheet order, and no undated row is. */
  lemma {:induction false} DatedKeepsOrder(rows: seq<Record>)
    ensures IsSubsequence(Dated(rows), rows)
    ensures forall r :: multiset(Dated(rows))[r] == if IsDated(r) then multiset(rows)[r] else 0
  {
    if rows != [] {
      DatedKeepsOrder(rows[1..]);
      var rest := Dated(rows[1..]);
      assert rows == [rows[0]] + rows[1..];
      assert multiset(rows) == multiset{rows[0]} + multiset(rows[1..]);
      if IsDated(rows[0]) {
        assert ([rows[0]] + rest)[1..] == rest;
      }
    }
  }

  lemma {:induction false} DatedOfAllDated(rows: seq<Record>)
    requires AllDated(rows)
    ensures Dated(rows) == rows
  {
    if rows != [] {
      assert rows[0] in rows;
      DatedOfAllDated(rows[1..]);
      assert [rows[0]] + rows[1..] == rows;
    }
  }

  /** xs is obtained from ys by deleting elements, keeping the order of the rest. */
  predicate IsSubsequence<T(==)>(xs: seq<T>, ys: seq<T>)
    decreases |ys|
  {
    xs == [] ||
    (ys != [] &&
     ((xs[0] == ys[0] && IsSubsequence(xs[1..], ys[1..])) || IsSubsequence(xs, ys[1..])))
  }
}
