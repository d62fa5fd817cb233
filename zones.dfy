/**
 * Zone classification and the delivery map's markers. The zone of a
 * delivery is read off its fee, not off its coordinates: a fee of 25 means
 * the delivery was inside the priced zone, 75 means outside, and anything
 * else (including no fee) is unclassified. The zone polygon is only drawn.
 */
module Zones {
  import opened Records

  datatype Zone = Within | Outside | Unclassified

  /** The fee charged inside the zone, and outside it. */
  const WithinFee: real := 25.0
  const OutsideFee: real := 75.0

  function Classify(payment: Option<real>): (z: Zone)
    ensures z == Within <==> payment == Some(WithinFee)
    ensures z == Outside <==> payment == Some(OutsideFee)
    ensures z == Unclassified <==> payment != Some(WithinFee) && payment != Some(OutsideFee)
  {
    if payment.Some? && payment.value == WithinFee then Within
    else if payment.Some? && payment.value == OutsideFee then Outside
    else Unclassified
  }

  /** The marker colour the map uses for each zone: a different colour for each. */
  function ZoneColor(z: Zone): (c: string)
    ensures c == "green" <==> z == Within
    ensures c == "red" <==> z == Outside
    ensures c == "gray" <==> z == Unclassified
  {
    match z
    case Within => "green"
    case Outside => "red"
    case Unclassified => "gray"
  }

  /** The marker tooltip for each zone: a classified zone ends with its fee, an unclassified one names none. */
  function ZoneTooltip(z: Zone): (t: string)
    ensures |t| >= 5
    ensures z == Within ==> t[|t| - 5..] == "($25)"
    ensures z == Outside ==> t[|t| - 5..] == "($75)"
    ensures z == Unclassified ==> '$' !in t
  {
    match z
    case Within => "Dentro cuadrante ($25)"
    case Outside => "Fuera cuadrante ($75)"
    case Unclassified => "Sin clasificación"
  }

  predicate HasCoordinates(r: Record) {
    r.latitude.Some? && r.longitude.Some?
  }

  /** One map marker: where it stands and how it is coloured. */
  datatype Marker = Marker(latitude: real, longitude: real, zone: Zone)

  function MarkerFor(r: Record): Marker
    requires HasCoordinates(r)
  {
    Marker(r.latitude.value, r.longitude.value, Classify(r.payment))
  }

  /** The rows left after dropping those missing a latitude or a longitude, in order. */
  function Located(rows: seq<Record>): (out: seq<Record>)
    ensures |out| <= |rows|
    ensures forall r :: r in out <==> r in rows && HasCoordinates(r)
  {
    if rows == [] then []
    else if HasCoordinates(rows[0]) then [rows[0]] + Located(rows[1..])
    else Located(rows[1..])
  }

  /** Every located row is kept as often as it occurs, in row order, and no other row is. */
  lemma {:induction false} LocatedKeepsOrder(rows: seq<Record>)
    ensures IsSubsequence(Located(rows), rows)
    ensures forall r :: multiset(Located(rows))[r] == if HasCoordinates(r) then multiset(rows)[r] else 0
  {
    if rows != [] {
      LocatedKeepsOrder(rows[1..]);
      var rest := Located(rows[1..]);
      assert rows == [rows[0]] + rows[1..];
      assert multiset(rows) == multiset{rows[0]} + multiset(rows[1..]);
      if HasCoordinates(rows[0]) {
        assert ([rows[0]] + rest)[1..] == rest;
      }
    }
  }

  /**
   * Builds the map's markers: no map at all when no row has both
   * coordinates, otherwise one marker per located row, in row order, at
   * that row's position and coloured by its fee.
   */
  method CreateMap(rows: seq<Record>) returns (markers: Option<seq<Marker>>)
    ensures markers.None? <==> forall r :: r in rows ==> !HasCoordinates(r)
    ensures markers.Some? ==>
              var located := Located(rows);
              && |markers.value| == |located|
              && forall i :: 0 <= i < |located| ==> markers.value[i] == MarkerFor(located[i])
  {
    var located := Located(rows);
    if |located| == 0 {
      return None;
    }
    var placed: seq<Marker> := [];
    var i := 0;
    while i < |located|
      invariant 0 <= i <= |located|
      invariant |placed| == i
      invariant forall k :: 0 <= k < i ==> placed[k] == MarkerFor(located[k])
    {
      var row := located[i];
      assert row in located;
      placed := placed + [Marker(row.latitude.value, row.longitude.value, Classify(row.payment))];
      i := i + 1;
    }
    assert located[0] in rows && HasCoordinates(located[0]);
    markers := Some(placed);
  }
}
