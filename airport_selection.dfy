/**
 * The airport access step (`frontend/app/airport-selection/page.tsx`): a
 * technician picks one of the offered airports and types that airport's PIN;
 * only an exact match records the airport in the session store.
 * The page's rendering is not modelled; its state variables and its submit
 * handler are.
 */
module AirportSelection {
  import opened Wrappers
  import Auth

  /** The access PIN of each airport, keyed by airport name. */
  const AirportPins: map<string, string> := map["Riyadh" := "5555", "Dammam" := "6666", "Jeddah" := "7777"]

  /** An airport offered in the selection list. */
  datatype Airport = Airport(code: string, name: string, fullName: string)

  const Airports: seq<Airport> := [
    Airport("RUH", "Riyadh", "King Khalid International Airport"),
    Airport("DMM", "Dammam", "King Fahd International Airport"),
    Airport("JED", "Jeddah", "King Abdulaziz International Airport")
  ]

  const MissingInputMessage := "Please select an airport and enter the PIN"
  const InvalidPinMessage := "Invalid PIN for the selected airport"

  /** `AIRPORT_PINS[airport]`: `None` (undefined) for a name not in the table. */
  function PinFor(airport: string): Option<string> {
    if airport in AirportPins then Some(AirportPins[airport]) else None
  }

  /** The outcome of the checks `handleSubmit` makes, in the order it makes them. */
  datatype Decision = MissingInput | InvalidPin | Granted

  function CheckAccess(airport: string, pin: string): (d: Decision)
    ensures d == MissingInput <==> airport == "" || pin == ""
    ensures d == Granted <==> airport != "" && pin != "" && PinFor(airport) == Some(pin)
  {
    if airport == "" || pin == "" then MissingInput
    else if PinFor(airport) != Some(pin) then InvalidPin
    else Granted
  }

  /** The message a decision leaves on the page; success leaves it cleared. */
  function ErrorFor(d: Decision): string {
    match d
    case MissingInput => MissingInputMessage
    case InvalidPin => InvalidPinMessage
    case Granted => ""
  }

  /** Each airport opens with its own PIN and with no other text. */
  lemma PinTable(pin: string)
    ensures CheckAccess("Riyadh", pin) == Granted <==> pin == "5555"
    ensures CheckAccess("Dammam", pin) == Granted <==> pin == "6666"
    ensures CheckAccess("Jeddah", pin) == Granted <==> pin == "7777"
  {
  }

  /** A name outside the PIN table has no PIN, so every typed PIN is refused. */
  lemma UnknownAirportRefused(airport: string, pin: string)
    requires airport != "" && pin != "" && airport !in AirportPins
    ensures CheckAccess(airport, pin) == InvalidPin
  {
  }

  /** Every airport the list offers has a PIN, so each can be unlocked. */
  lemma OfferedAirportsHavePins(k: nat)
    requires k < |Airports|
    ensures Airports[k].name in AirportPins
    ensures CheckAccess(Airports[k].name, AirportPins[Airports[k].name]) == Granted
  {
  }

  /** When the submit button is enabled the empty-input check cannot fire. */
  lemma EnabledSubmitHasInput(isLoading: bool, airport: string, pin: string)
    requires SubmitEnabled(isLoading, airport, pin)
    ensures CheckAccess(airport, pin) != MissingInput
  {
  }

  /** `disabled={isLoading || !selectedAirport || !pin}`, negated. */
  predicate SubmitEnabled(isLoading: bool, airport: string, pin: string) {
    !isLoading && airport != "" && pin != ""
  }

  class AirportSelectionPage {
    var selectedAirport: string
    var pin: string
    var isLoading: bool
    var error: string
    /** The route the page last sent the browser to, if any. */
    var navigatedTo: Option<string>
    const auth: Auth.AuthManager

    constructor (auth: Auth.AuthManager)
      ensures this.auth == auth
      ensures selectedAirport == "" && pin == "" && !isLoading && error == "" && navigatedTo == None
    {
      this.auth := auth;
      selectedAirport, pin, isLoading, error := "", "", false, "";
      navigatedTo := None;
    }

    /** The effect that sends a visitor who is not signed in to the login page. */
    method GuardSession()
      modifies this`navigatedTo
      ensures navigatedTo == if auth.authState.isAuthenticated then old(navigatedTo) else Some("/login")
    {
      if !auth.authState.isAuthenticated {
        navigatedTo := Some("/login");
      }
    }

    /**
     * The form's submit handler: clears the error, checks for empty input,
     * then compares the PIN, and records the airport in the session store
     * only when both checks pass.
     */
    method HandleSubmit()
      requires auth.Valid()
      modifies this`isLoading, this`error, this`navigatedTo, auth
      ensures auth.Valid()
      ensures !isLoading
      ensures error == ErrorFor(CheckAccess(selectedAirport, pin))
      ensures CheckAccess(selectedAirport, pin) == Granted ==>
                && auth.authState == old(auth.authState).(selectedAirport := Some(selectedAirport))
                && auth.listeners == old(auth.listeners)
                && auth.deliveries == old(auth.deliveries) + Auth.Broadcast(auth.listeners, auth.authState)
                && navigatedTo == Some("/dashboard")
      ensures CheckAccess(selectedAirport, pin) != Granted ==>
                && auth.authState == old(auth.authState)
                && auth.listeners == old(auth.listeners)
                && auth.deliveries == old(auth.deliveries)
                && navigatedTo == old(navigatedTo)
    {
      isLoading := true;
      error := "";

      if selectedAirport == "" || pin == "" {
        error := MissingInputMessage;
        isLoading := false;
        return;
      }

      var correctPin := PinFor(selectedAirport);
      if correctPin != Some(pin) {
        error := InvalidPinMessage;
        isLoading := false;
        return;
      }

      auth.SelectAirport(selectedAirport);
      navigatedTo := Some("/dashboard");
      isLoading := false;
    }
  }
}
