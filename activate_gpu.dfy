/**
 * The mock ground-power activation endpoint
 * (`frontend/app/api/flights/activate_gpu/route.ts`): accepts any request
 * naming a flight and reports randomly drawn savings.
 */
module ActivateGpu {
  import opened Wrappers
  import Json

  const MissingFlight := "Flight number is required"
  const Failed := "Failed to activate GPU"

  /** `{ co2, fuel }` in kilograms. */
  datatype Savings = Savings(co2: int, fuel: int)

  datatype GpuReply =
    | GpuFailure(message: string)
    | GpuActivated(message: string, flightNumber: Json.Value, activatedAt: string, estimatedSavings: Savings)
  {
    /** The `success` field of the JSON body. */
    predicate Success() { GpuActivated? }
  }

  /**
   * `POST /api/flights/activate_gpu`. `body` is `None` when `request.json()`
   * rejected; `activatedAt` is the clock reading and `co2Draw`, `fuelDraw` are
   * `Math.floor(Math.random() * 20)` and `Math.floor(Math.random() * 15)`.
   */
  function Post(body: Option<Json.Value>, activatedAt: string, co2Draw: int, fuelDraw: int)
    : (r: Json.Response<GpuReply>)
    requires 0 <= co2Draw < 20 && 0 <= fuelDraw < 15
    ensures (body.None? || body.value.Null?) ==> r == Json.Response(500, GpuFailure(Failed))
    ensures body.Some? && !body.value.Null? && !Json.Present(Json.Get(body.value, "flightNumber")) ==>
              r == Json.Response(400, GpuFailure(MissingFlight))
    ensures r.body.Success() <==> body.Some? && !body.value.Null? && Json.Present(Json.Get(body.value, "flightNumber"))
    ensures r.body.Success() ==>
              && r.status == Json.OK
              && Json.Get(body.value, "flightNumber") == Some(r.body.flightNumber)
              && r.body.message == "GPU successfully activated for flight " + Json.ToText(r.body.flightNumber)
              && r.body.activatedAt == activatedAt
              && 30 <= r.body.estimatedSavings.co2 <= 49
              && 20 <= r.body.estimatedSavings.fuel <= 34
  {
    match body
    case None => Json.Response(500, GpuFailure(Failed))
    case Some(v) =>
      if v.Null? then
        // destructuring null throws a TypeError
        Json.Response(500, GpuFailure(Failed))
      else
        var flightNumber := Json.Get(v, "flightNumber");
        if !Json.Present(flightNumber) then
          Json.Response(400, GpuFailure(MissingFlight))
        else
          Json.Response(Json.OK, GpuActivated("GPU successfully activated for flight " + Json.ToText(flightNumber.value),
                                              flightNumber.value, activatedAt,
                                              Savings(co2Draw + 30, fuelDraw + 20)))
  }

  /**
   * Every value in the proved ranges can be reported: the ranges are exact.
   * (The source's comments say 30-50 and 20-35; the upper ends are not reached.)
   */
  lemma SavingsRangesExact(fields: map<string, Json.Value>, co2: int, fuel: int)
    requires "flightNumber" in fields && Json.Truthy(fields["flightNumber"])
    requires 30 <= co2 <= 49 && 20 <= fuel <= 34
    ensures Post(Some(Json.Obj(fields)), "", co2 - 30, fuel - 20).body.estimatedSavings == Savings(co2, fuel)
  {
  }

  /** A string flight number is quoted verbatim in the success message. */
  lemma StringFlightMessage(flightNumber: string, rest: map<string, Json.Value>, at: string)
    requires flightNumber != ""
    ensures var r := Post(Some(Json.Obj(rest["flightNumber" := Json.Str(flightNumber)])), at, 0, 0);
            r.body.Success() && r.body.message == "GPU successfully activated for flight " + flightNumber
  {
  }
}
