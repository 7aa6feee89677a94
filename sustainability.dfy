/**
 * The sustainability endpoint (`frontend/app/api/dashboard/sustainability/route.ts`):
 * fixed savings figures per airport (headline totals, a monthly trend, a
 * per-flight summary and the same trend as emission reductions), chosen by
 * the `airport` query parameter.
 */
module Sustainability {
  import opened Wrappers
  import Json
  import opened Airports

  datatype MonthPoint = MonthPoint(date: string, co2Saved: int, fuelSaved: int)

  datatype FlightSaving = FlightSaving(flightNumber: string, origin: string, destination: string,
                                       co2Saved: int, fuelSaved: int, gpuUsed: bool, gate: string)

  datatype EmissionPoint = EmissionPoint(month: string, co2Reduction: int, fuelReduction: int)

  datatype SustainabilityData = SustainabilityData(co2Saved: int, fuelSaved: int,
                                                   monthlyTrend: seq<MonthPoint>,
                                                   flightSummary: seq<FlightSaving>,
                                                   emissionTrend: seq<EmissionPoint>)

  /** The name under which an airport's entry is listed. */
  function KeyName(k: AirportKey): string {
    match k
    case Riyadh => "Riyadh"
    case Jeddah => "Jeddah"
    case Dammam => "Dammam"
  }

  /** The fixed figures of each airport. */
  function DataFor(k: AirportKey): SustainabilityData {
    match k
    case Riyadh =>
      SustainabilityData(1847, 1123,
        [MonthPoint("Jan", 1400, 800), MonthPoint("Feb", 1550, 900), MonthPoint("Mar", 1650, 950),
         MonthPoint("Apr", 1750, 1050), MonthPoint("May", 1847, 1123)],
        [FlightSaving("SV123", "Dubai", "Riyadh", 45, 28, true, "A12"),
         FlightSaving("MS456", "Cairo", "Riyadh", 38, 22, false, "B05"),
         FlightSaving("EK789", "London", "Riyadh", 52, 31, true, "C08")],
        [EmissionPoint("Jan", 1400, 800), EmissionPoint("Feb", 1550, 900), EmissionPoint("Mar", 1650, 950),
         EmissionPoint("Apr", 1750, 1050), EmissionPoint("May", 1847, 1123)])
    case Jeddah =>
      SustainabilityData(1456, 892,
        [MonthPoint("Jan", 1100, 650), MonthPoint("Feb", 1200, 720), MonthPoint("Mar", 1300, 780),
         MonthPoint("Apr", 1380, 830), MonthPoint("May", 1456, 892)],
        [FlightSaving("SV234", "Istanbul", "Jeddah", 42, 26, true, "A01"),
         FlightSaving("TK654", "Frankfurt", "Jeddah", 48, 29, false, "A04"),
         FlightSaving("BA567", "London", "Jeddah", 55, 33, true, "B04")],
        [EmissionPoint("Jan", 1100, 650), EmissionPoint("Feb", 1200, 720), EmissionPoint("Mar", 1300, 780),
         EmissionPoint("Apr", 1380, 830), EmissionPoint("May", 1456, 892)])
    case Dammam =>
      SustainabilityData(987, 623,
        [MonthPoint("Jan", 750, 450), MonthPoint("Feb", 820, 500), MonthPoint("Mar", 880, 540),
         MonthPoint("Apr", 930, 580), MonthPoint("May", 987, 623)],
        [FlightSaving("SV345", "Kuwait", "Dammam", 35, 21, false, "A01"),
         FlightSaving("EY456", "Abu Dhabi", "Dammam", 40, 24, true, "A02"),
         FlightSaving("QR789", "Doha", "Dammam", 38, 23, false, "A05")],
        [EmissionPoint("Jan", 750, 450), EmissionPoint("Feb", 820, 500), EmissionPoint("Mar", 880, 540),
         EmissionPoint("Apr", 930, 580), EmissionPoint("May", 987, 623)])
  }

  function Co2Series(trend: seq<MonthPoint>): seq<int> {
    seq(|trend|, i requires 0 <= i < |trend| => trend[i].co2Saved)
  }

  function FuelSeries(trend: seq<MonthPoint>): seq<int> {
    seq(|trend|, i requires 0 <= i < |trend| => trend[i].fuelSaved)
  }

  /** Each entry exceeds the one before it. */
  predicate StepIncreasing(xs: seq<int>) {
    forall i :: 0 < i < |xs| ==> xs[i - 1] < xs[i]
  }

  /** Every later entry exceeds every earlier one. */
  predicate StrictlyIncreasing(xs: seq<int>) {
    forall i, j :: 0 <= i < j < |xs| ==> xs[i] < xs[j]
  }

  lemma {:induction false} StepIncreasingIsStrict(xs: seq<int>)
    requires StepIncreasing(xs)
    ensures StrictlyIncreasing(xs)
  {
    if |xs| > 1 {
      var front := xs[..|xs| - 1];
      assert StepIncreasing(front);
      StepIncreasingIsStrict(front);
      forall i, j | 0 <= i < j < |xs| ensures xs[i] < xs[j] {
        if j < |xs| - 1 {
          assert front[i] < front[j];
        } else if i < |xs| - 2 {
          assert front[i] < front[|xs| - 2];
        }
      }
    }
  }

  /**
   * The consistency of an airport's figures: headline totals are May's
   * figures, the emission trend repeats the monthly trend, both monthly
   * series rise, and every listed flight lands at that airport.
   */
  predicate Consistent(k: AirportKey, d: SustainabilityData) {
    && |d.monthlyTrend| == 5
    && d.co2Saved == d.monthlyTrend[4].co2Saved && d.fuelSaved == d.monthlyTrend[4].fuelSaved
    && d.monthlyTrend[4].date == "May"
    && |d.emissionTrend| == |d.monthlyTrend|
    && (forall i :: 0 <= i < |d.emissionTrend| ==>
          d.emissionTrend[i] == EmissionPoint(d.monthlyTrend[i].date, d.monthlyTrend[i].co2Saved,
                                              d.monthlyTrend[i].fuelSaved))
    && StrictlyIncreasing(Co2Series(d.monthlyTrend))
    && StrictlyIncreasing(FuelSeries(d.monthlyTrend))
    && (forall f :: f in d.flightSummary ==> f.destination == KeyName(k))
  }

  /** Every airport's table entry is consistent. */
  lemma TableConsistent(k: AirportKey)
    ensures Consistent(k, DataFor(k))
  {
    var d := DataFor(k);
    assert StepIncreasing(Co2Series(d.monthlyTrend));
    assert StepIncreasing(FuelSeries(d.monthlyTrend));
    StepIncreasingIsStrict(Co2Series(d.monthlyTrend));
    StepIncreasingIsStrict(FuelSeries(d.monthlyTrend));
  }

  const FetchFailed := "Failed to fetch sustainability data"

  /**
   * The body: the chosen figures spread out, the `airport` parameter exactly
   * as requested (possibly absent) and a timestamp; or `{ error }`.
   */
  datatype SustainabilityReply =
    | Report(data: SustainabilityData, airport: Option<string>, timestamp: string)
    | ReportError(error: string)

  /**
   * `GET /api/dashboard/sustainability`. `airport` is `None` when the request
   * URL could not be parsed (the handler's only failure), otherwise the value
   * of the `airport` parameter; `timestamp` is the clock reading.
   */
  function Get(airport: Option<Option<string>>, timestamp: string): (r: Json.Response<SustainabilityReply>)
    ensures airport.None? ==> r == Json.Response(500, ReportError(FetchFailed))
    ensures airport.Some? ==>
              && r.status == Json.OK && r.body.Report?
              && r.body.airport == airport.value
              && r.body.timestamp == timestamp
              && r.body.data == DataFor(Resolve(airport.value))
              && Consistent(Resolve(airport.value), r.body.data)
  {
    match airport
    case None => Json.Response(500, ReportError(FetchFailed))
    case Some(requested) =>
      TableConsistent(Resolve(requested));
      Json.Response(Json.OK, Report(DataFor(Resolve(requested)), requested, timestamp))
  }

  /** An absent or unknown airport is answered with Riyadh's figures, labelled as requested. */
  lemma UnknownAirportGetsRiyadh(airport: Option<string>, timestamp: string)
    requires airport !in {Some("Riyadh"), Some("Jeddah"), Some("Dammam")}
    ensures Get(Some(airport), timestamp).body.data == DataFor(Riyadh)
    ensures forall f :: f in Get(Some(airport), timestamp).body.data.flightSummary ==> f.destination == "Riyadh"
    ensures Get(Some(airport), timestamp).body.airport == airport
  {
  }
}
