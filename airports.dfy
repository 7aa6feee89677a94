/**
 * The airport keys of the dashboard endpoints' data tables and the lookup
 * `airportData[airport] || airportData.Riyadh` both of them perform.
 */
module Airports {
  import opened Wrappers

  datatype AirportKey = Riyadh | Jeddah | Dammam

  /**
   * The table entry used for the `airport` query parameter (`None` when the
   * parameter is absent): the named airport when it is one of the three keys,
   * otherwise Riyadh. Table entries are objects, so `||` falls back only when
   * the key is absent.
   */
  function Resolve(airport: Option<string>): (k: AirportKey)
    ensures airport == Some("Riyadh") ==> k == Riyadh
    ensures airport == Some("Jeddah") ==> k == Jeddah
    ensures airport == Some("Dammam") ==> k == Dammam
    ensures airport !in {Some("Riyadh"), Some("Jeddah"), Some("Dammam")} ==> k == Riyadh
  {
    match airport
    case Some("Jeddah") => Jeddah
    case Some("Dammam") => Dammam
    case _ => Riyadh
  }
}
