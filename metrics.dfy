/**
 * The four headline figures shown above the map for the filtered rows:
 * number of deliveries, money collected, and how many deliveries were
 * charged the in-zone and the out-of-zone fee.
 */
module Metrics {
  import opened Records
  import opened Zones

  datatype Summary = Summary(deliveries: nat, amount: real, within: nat, outside: nat)

  /** How many rows carry exactly the given payment (a missing payment never equals it). */
  function CountPayment(rows: seq<Record>, fee: real): (n: nat)
    ensures n <= |rows|
    ensures n == 0 <==> forall i :: 0 <= i < |rows| ==> rows[i].payment != Some(fee)
  {
    if rows == [] then 0
    else
      assert forall i :: 1 <= i < |rows| ==> rows[1..][i - 1] == rows[i];
      (if rows[0].payment == Some(fee) then 1 else 0) + CountPayment(rows[1..], fee)
  }

  /** How many rows classify into the given zone. */
  function CountZone(rows: seq<Record>, z: Zone): nat {
    if rows == [] then 0
    else (if Classify(rows[0].payment) == z then 1 else 0) + CountZone(rows[1..], z)
  }

  /** The headline figures; the in-zone and out-of-zone counts never exceed the deliveries. */
  function Headline(rows: seq<Record>): (m: Summary)
    ensures m.deliveries == |rows|
    ensures m.within + m.outside <= m.deliveries
  {
    ZoneCountsMatchFees(rows);
    ZonesPartitionRows(rows);
    Summary(|rows|, PaymentTotal(rows), CountPayment(rows, WithinFee), CountPayment(rows, OutsideFee))
  }

  /** The headline fee counts agree with the zones the same rows classify into. */
  lemma {:induction false} ZoneCountsMatchFees(rows: seq<Record>)
    ensures CountZone(rows, Within) == CountPayment(rows, WithinFee)
    ensures CountZone(rows, Outside) == CountPayment(rows, OutsideFee)
  {
    if rows != [] {
      ZoneCountsMatchFees(rows[1..]);
    }
  }

  /** Every row falls in exactly one of the three zones. */
  lemma {:induction false} ZonesPartitionRows(rows: seq<Record>)
    ensures CountZone(rows, Within) + CountZone(rows, Outside) + CountZone(rows, Unclassified) == |rows|
  {
    if rows != [] {
      ZonesPartitionRows(rows[1..]);
    }
  }

  /** In-zone plus out-of-zone plus unclassified deliveries make up all deliveries. */
  lemma HeadlinePartition(rows: seq<Record>)
    ensures Headline(rows).within + Headline(rows).outside + CountZone(rows, Unclassified)
            == Headline(rows).deliveries
  {
    ZoneCountsMatchFees(rows);
    ZonesPartitionRows(rows);
  }

  /**
   * The map's green (red) markers, one per located row classified in (out
   * of) the zone, never outnumber the headline 25 (75) count, and match it
   * when every row has both coordinates.
   */
  lemma {:induction false} MapZonesWithinHeadline(rows: seq<Record>)
    ensures CountZone(Located(rows), Within) <= CountPayment(rows, WithinFee)
    ensures CountZone(Located(rows), Outside) <= CountPayment(rows, OutsideFee)
    ensures (forall r :: r in rows ==> HasCoordinates(r)) ==>
              && CountZone(Located(rows), Within) == CountPayment(rows, WithinFee)
              && CountZone(Located(rows), Outside) == CountPayment(rows, OutsideFee)
  {
    if rows != [] {
      MapZonesWithinHeadline(rows[1..]);
      var rest := Located(rows[1..]);
      if HasCoordinates(rows[0]) {
        assert ([rows[0]] + rest)[1..] == rest;
      }
      assert forall r :: r in rows[1..] ==> r in rows;
    }
  }

  /**
   * Without a 'Pago' column the headline shows no money and no delivery at
   * either fee, whatever the rows.
   */
  lemma HeadlineWithoutPaymentColumn(cols: Columns, rows: seq<Record>)
    requires Conforms(cols, rows) && !cols.payment
    ensures Headline(rows).amount == 0.0
    ensures Headline(rows).within == 0 && Headline(rows).outside == 0
  {
    PaymentTotalBounds(rows);
    assert forall i :: 0 <= i < |rows| ==> rows[i] in rows;
  }
}
