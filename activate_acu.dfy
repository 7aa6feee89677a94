/**
 * The mock air-conditioning activation endpoint
 * (`frontend/app/api/flights/activate_acu/route.ts`): the same shape as the
 * ground-power endpoint, with its own savings ranges and a fixed description
 * of the unit.
 */
module ActivateAcu {
  import opened Wrappers
  import Json

  const MissingFlight := "Flight number is required"
  const Failed := "Failed to activate ACU"

  /** `{ co2, fuel }` in kilograms. */
  datatype Savings = Savings(co2: int, fuel: int)

  datatype AcuDetails = AcuDetails(temperature: string, airflow: string, energyEfficiency: string)

  /** The unit description every successful activation reports. */
  const Details := AcuDetails("22°C", "High", "95%")

  datatype AcuReply =
    | AcuFailure(message: string)
    | AcuActivated(message: string, flightNumber: Json.Value, activatedAt: string,
                   estimatedSavings: Savings, acuDetails: AcuDetails)
  {
    /** The `success` field of the JSON body. */
    predicate Success() { AcuActivated? }
  }

  /**
   * `POST /api/flights/activate_acu`. `body` is `None` when `request.json()`
   * rejected; `activatedAt` is the clock reading and `co2Draw`, `fuelDraw` are
   * `Math.floor(Math.random() * 15)` and `Math.floor(Math.random() * 10)`.
   */
  function Post(body: Option<Json.Value>, activatedAt: string, co2Draw: int, fuelDraw: int)
    : (r: Json.Response<AcuReply>)
    requires 0 <= co2Draw < 15 && 0 <= fuelDraw < 10
    ensures (body.None? || body.value.Null?) ==> r == Json.Response(500, AcuFailure(Failed))
    ensures body.Some? && !body.value.Null? && !Json.Present(Json.Get(body.value, "flightNumber")) ==>
              r == Json.Response(400, AcuFailure(MissingFlight))
    ensures r.body.Success() <==> body.Some? && !body.value.Null? && Json.Present(Json.Get(body.value, "flightNumber"))
    ensures r.body.Success() ==>
              && r.status == Json.OK
              && Json.Get(body.value, "flightNumber") == Some(r.body.flightNumber)
              && r.body.message == "ACU successfully activated for flight " + Json.ToText(r.body.flightNumber)
              && r.body.activatedAt == activatedAt
              && 25 <= r.body.estimatedSavings.co2 <= 39
              && 15 <= r.body.estimatedSavings.fuel <= 24
              && r.body.acuDetails == AcuDetails("22°C", "High", "95%")
  {
    match body
    case None => Json.Response(500, AcuFailure(Failed))
    case Some(v) =>
      if v.Null? then
        // destructuring null throws a TypeError
        Json.Response(500, AcuFailure(Failed))
      else
        var flightNumber := Json.Get(v, "flightNumber");
        if !Json.Present(flightNumber) then
          Json.Response(400, AcuFailure(MissingFlight))
        else
          Json.Response(Json.OK, AcuActivated("ACU successfully activated for flight " + Json.ToText(flightNumber.value),
                                              flightNumber.value, activatedAt,
                                              Savings(co2Draw + 25, fuelDraw + 15), Details))
  }

  /**
   * Every value in the proved ranges can be reported: the ranges are exact.
   * (The source's comments say 25-40 and 15-25; the upper ends are not reached.)
   */
  lemma SavingsRangesExact(fields: map<string, Json.Value>, co2: int, fuel: int)
    requires "flightNumber" in fields && Json.Truthy(fields["flightNumber"])
    requires 25 <= co2 <= 39 && 15 <= fuel <= 24
    ensures Post(Some(Json.Obj(fields)), "", co2 - 25, fuel - 15).body.estimatedSavings == Savings(co2, fuel)
  {
  }

  /** A string flight number is quoted verbatim in the success message. */
  lemma StringFlightMessage(flightNumber: string, rest: map<string, Json.Value>, at: string)
    requires flightNumber != ""
    ensures var r := Post(Some(Json.Obj(rest["flightNumber" := Json.Str(flightNumber)])), at, 0, 0);
            r.body.Success() && r.body.message == "ACU successfully activated for flight " + flightNumber
  {
  }
}
