/**
 * The courier selector's entries: "Total" first, then every courier name
 * of the sheet that is not blank once surrounding whitespace is stripped,
 * once each, in ascending code-point order.
 */
module Employees {
  import opened Records
  import Filtering

  /** The characters Python's str.strip() removes (those for which str.isspace() holds). */
  predicate IsSpace(c: char) {
    var n := c as int;
    || n == 0x20 || 0x09 <= n <= 0x0D || 0x1C <= n <= 0x1F
    || n == 0x85 || n == 0xA0 || n == 0x1680 || 0x2000 <= n <= 0x200A
    || n == 0x2028 || n == 0x2029 || n == 0x202F || n == 0x205F || n == 0x3000
  }

  /** Nothing is left of the name once it is stripped. */
  predicate IsBlank(s: string) {
    forall i :: 0 <= i < |s| ==> IsSpace(s[i])
  }

  /** Python's string order: code point by code point, a proper prefix first. */
  predicate StrLess(a: string, b: string) {
    if a == [] then b != []
    else if b == [] then false
    else if a[0] != b[0] then a[0] < b[0]
    else StrLess(a[1..], b[1..])
  }

  lemma {:induction false} StrLessIrreflexive(a: string)
    ensures !StrLess(a, a)
  {
    if a != [] {
      StrLessIrreflexive(a[1..]);
    }
  }

  lemma {:induction false} StrLessTotal(a: string, b: string)
    ensures a == b || StrLess(a, b) || StrLess(b, a)
  {
    if a != [] && b != [] && a[0] == b[0] {
      StrLessTotal(a[1..], b[1..]);
      if a[1..] == b[1..] {
        assert a == [a[0]] + a[1..] && b == [b[0]] + b[1..];
      }
    }
  }

  lemma {:induction false} StrLessTransitive(a: string, b: string, c: string)
    requires StrLess(a, b) && StrLess(b, c)
    ensures StrLess(a, c)
  {
    if a != [] && a[0] == b[0] && b[0] == c[0] {
      StrLessTransitive(a[1..], b[1..], c[1..]);
    }
  }

  /** Every entry is before every later entry: ascending and without repeats. */
  predicate StrictlyAscending(s: seq<string>) {
    forall i, j :: 0 <= i < j < |s| ==> StrLess(s[i], s[j])
  }

  lemma AscendingIsDistinct(s: seq<string>)
    requires StrictlyAscending(s)
    ensures forall i, j :: 0 <= i < |s| && 0 <= j < |s| && i != j ==> s[i] != s[j]
  {
    forall i, j | 0 <= i < |s| && 0 <= j < |s| && i != j ensures s[i] != s[j] {
      if i < j { StrLessIrreflexive(s[i]); } else { StrLessIrreflexive(s[j]); }
    }
  }

  /** Adds a name to an ascending list unless it is there already. */
  function InsertName(x: string, s: seq<string>): (out: seq<string>)
    requires StrictlyAscending(s)
    ensures StrictlyAscending(out)
    ensures forall e :: e in out <==> e == x || e in s
  {
    if s == [] then [x]
    else if x == s[0] then s
    else if StrLess(x, s[0]) then
      assert forall e :: e in s ==> e == s[0] || e in s[1..];
      assert forall j :: 0 <= j < |s| ==> StrLess(x, s[j]) by {
        forall j | 0 <= j < |s| ensures StrLess(x, s[j]) {
          if j > 0 { StrLessTransitive(x, s[0], s[j]); }
        }
      }
      [x] + s
    else
      StrLessTotal(x, s[0]);
      var rest := InsertName(x, s[1..]);
      assert forall e :: e in s ==> e == s[0] || e in s[1..];
      assert forall k :: 0 <= k < |rest| ==> rest[k] in rest;
      [s[0]] + rest
  }

  /** The distinct non-blank courier names of the rows, ascending. */
  function Names(rows: seq<Record>): (names: seq<string>)
    ensures StrictlyAscending(names)
    ensures forall r :: r in rows && r.employee.Some? && !IsBlank(r.employee.value) ==> r.employee.value in names
    ensures forall e :: e in names ==> !IsBlank(e) && exists r :: r in rows && r.employee == Some(e)
  {
    if rows == [] then []
    else
      var rest := Names(rows[1..]);
      var r := rows[0];
      assert forall x :: x in rows ==> x == r || x in rows[1..];
      if r.employee.Some? && !IsBlank(r.employee.value) then InsertName(r.employee.value, rest) else rest
  }

  /** The selector's entries: "Total", then the names. */
  function SelectorEntries(rows: seq<Record>): (entries: seq<string>)
    ensures |entries| >= 1 && entries[0] == Filtering.AllEmployees
    ensures StrictlyAscending(entries[1..])
    ensures forall i, j :: 1 <= i < |entries| && 1 <= j < |entries| && i != j ==> entries[i] != entries[j]
    ensures forall e :: e in entries[1..] ==> !IsBlank(e)
  {
    var names := Names(rows);
    AscendingIsDistinct(names);
    var entries := [Filtering.AllEmployees] + names;
    assert entries[1..] == names;
    assert forall i :: 1 <= i < |entries| ==> entries[i] == names[i - 1];
    entries
  }
}
