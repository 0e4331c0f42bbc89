/** The display rules of src/components/FlightCard.tsx: the fare-class badge,
    the stops label, the segment shown, and where "Select" leads. */
module FlightCard {
  import opened Text
  import opened Types

  /** `formatClassLabel`: the known fare-class literals get a display label;
      any other string is shown as it is. */
  function FormatClassLabel(flightClass: string): (r: string)
    ensures flightClass == "economy" ==> r == "Economy"
    ensures flightClass == "premium_economy" ==> r == "Premium Economy"
    ensures flightClass == "business" ==> r == "Business"
    ensures flightClass == "first" ==> r == "First Class"
    ensures flightClass !in {"economy", "premium_economy", "business", "first"} ==> r == flightClass
  {
    match flightClass
    case "economy" => "Economy"
    case "premium_economy" => "Premium Economy"
    case "business" => "Business"
    case "first" => "First Class"
    case _ => flightClass
  }

  /** Every fare class of the data model gets its own label, different from
      its literal, so no two classes share a badge. */
  lemma ClassLabelsDistinct(a: FlightClass, b: FlightClass)
    ensures FormatClassLabel(FlightClassName(a)) != FlightClassName(a)
    ensures a != b ==> FormatClassLabel(FlightClassName(a)) != FormatClassLabel(FlightClassName(b))
  {
  }

  /** The stops label under the duration. */
  function StopsLabel(segmentCount: nat): (r: string)
    ensures r == "Direct" <==> segmentCount <= 1
    ensures segmentCount > 1 ==> |r| > 8 && r[|r| - 8..] == " stop(s)" && AllDigits(r[..|r| - 8])
  {
    if segmentCount > 1 then Decimal(segmentCount - 1) + " stop(s)" else "Direct"
  }

  /** The number printed in a stops label is one less than the segment count:
      reading it back recovers the count. */
  lemma StopsLabelCountsStops(segmentCount: nat)
    requires segmentCount > 1
    ensures var r := StopsLabel(segmentCount);
            var digits := r[..|r| - |" stop(s)"|];
            AllDigits(digits) && DecimalValue(digits) + 1 == segmentCount
  {
    var r := StopsLabel(segmentCount);
    assert r[..|r| - |" stop(s)"|] == Decimal(segmentCount - 1);
    DecimalRoundTrip(segmentCount - 1);
  }

  /** The card shows the first segment only; the source indexes `segments[0]`
      unguarded, so it relies on every offer having at least one segment. */
  function DisplayedSegment(flight: Flight): (s: FlightSegment)
    requires |flight.segments| > 0
    ensures s == flight.segments[0] && s in flight.segments
  {
    flight.segments[0]
  }

  /** `handleSelect`: the route of the offer's detail page. */
  function SelectPath(flight: Flight): (r: string)
    ensures |r| == |"/flight/"| + |flight.id|
    ensures r[..|"/flight/"|] == "/flight/" && r[|"/flight/"|..] == flight.id
  {
    "/flight/" + flight.id
  }
}
