/**
 * The daily report endpoint (`frontend/app/api/dashboard/daily_reports/route.ts`):
 * a fixed figure set per airport, chosen by the `airport` query parameter.
 */
module DailyReports {
  import opened Wrappers
  import Json
  import opened Airports

  datatype DailyReport = DailyReport(todaysFlights: int, activeGPUUnits: int, totalFlights: int,
                                     notificationsSent: int, gpuActivations: int)

  /** The fixed figures of each airport. */
  function ReportFor(k: AirportKey): DailyReport {
    match k
    case Riyadh => DailyReport(89, 28, 89, 45, 76)
    case Jeddah => DailyReport(67, 22, 67, 34, 58)
    case Dammam => DailyReport(43, 18, 43, 28, 39)
  }

  const FetchFailed := "Failed to fetch daily reports"

  /**
   * The body: the chosen figures spread out, the `airport` parameter exactly
   * as requested (possibly absent) and a timestamp; or `{ error }`.
   */
  datatype DailyReply =
    | Report(data: DailyReport, airport: Option<string>, timestamp: string)
    | ReportError(error: string)

  /**
   * `GET /api/dashboard/daily_reports`. `airport` is `None` when the request
   * URL could not be parsed (the handler's only failure), otherwise the value
   * of the `airport` parameter; `timestamp` is the clock reading.
   */
  function Get(airport: Option<Option<string>>, timestamp: string): (r: Json.Response<DailyReply>)
    ensures airport.None? ==> r == Json.Response(500, ReportError(FetchFailed))
    ensures airport.Some? ==>
              && r.status == Json.OK && r.body.Report?
              && r.body.airport == airport.value
              && r.body.timestamp == timestamp
              && r.body.data == ReportFor(Resolve(airport.value))
              && r.body.data.totalFlights == r.body.data.todaysFlights
  {
    match airport
    case None => Json.Response(500, ReportError(FetchFailed))
    case Some(requested) =>
      var data := ReportFor(Resolve(requested));
      Json.Response(Json.OK, Report(data, requested, timestamp))
  }

  /** An absent or unknown airport is answered with Riyadh's figures, labelled as requested. */
  lemma UnknownAirportGetsRiyadh(airport: Option<string>, timestamp: string)
    requires airport !in {Some("Riyadh"), Some("Jeddah"), Some("Dammam")}
    ensures Get(Some(airport), timestamp).body.data == DailyReport(89, 28, 89, 45, 76)
    ensures Get(Some(airport), timestamp).body.airport == airport
  {
  }
}
