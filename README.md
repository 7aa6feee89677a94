# WAQET airport operations: session store, airport access and mock endpoints

A Dafny model of the logic in the WAQET ground-operations dashboard front end:

- the client-side session store `AuthManager` (`auth.dfy`, class `Auth.AuthManager`):
  the signed-in user, the chosen airport and the listeners that are called after each change;
- the airport access step (`airport_selection.dfy`): a fixed airport-to-PIN table, the list
  of airports offered, and the submit handler that checks for empty input, compares the PIN
  and only then records the airport in the session store;
- the mock API route handlers, each a pure function from the request to a status and a body:
  sign-up (`signup.dfy`), sign-in (`login.dfy`), ground power unit and air conditioning unit
  activation (`activate_gpu.dfy`, `activate_acu.dfy`), and the two per-airport dashboard
  lookups with their Riyadh fallback (`daily_reports.dfy`, `sustainability.dfy`, sharing
  `airports.dfy`).

Helper modules: `wrappers.dfy` (`Option`), `strings.dfy` (`includes`, `join`, decimal
rendering), `json.dfy` (JavaScript values as the handlers receive them from
`request.json()`: truthiness, property reads and the string conversion of a template literal).

Modelling choices:

- A listener is an opaque identity (`Listener`), because the source compares listeners by
  reference. The manager keeps a log `deliveries` of every listener call together with the
  state it was passed. `notify` is a loop that appends one `Delivery` per registration.
- `subscribe` returns an `Unsubscriber` value. Calling the returned closure is the method
  `AuthManager.Unsubscribe`.
- The static `AuthManager.instance` is the field of `AuthManagerStatics`.
- The page's React state variables are fields of `AirportSelectionPage`. Its setters take
  effect immediately and in order. Router navigation is the field `navigatedTo`.
- A request body is `Option<Json.Value>`. `None` means `request.json()` rejected. A JSON
  `null` body makes the property read or destructuring throw a TypeError, which the
  handler's `catch` turns into status 500; the model does the same.
- In the sign-in handler, `employeeNumber.includes("admin")` is a substring test on a string,
  an element test on an array, and a TypeError (status 500) on any other truthy value.
- `Math.floor(Math.random() * n)` is a parameter constrained to `[0, n)`. `Date.now()`,
  `new Date().toISOString()` and the timers are parameters or are left out.
- The dashboard query parameter is `Option<Option<string>>`. The outer `None` stands for a
  request URL that cannot be parsed, the handler's only way to fail; the inner one is an
  absent `airport` parameter.

Points where the code's behaviour may be surprising:

- Unsubscribing removes every registration of the same listener, because `unsubscribe` is a
  `filter` by reference. A listener subscribed twice loses both registrations at the first
  unsubscribe.
- The activation endpoints read only `flightNumber` from the request body; any other field,
  such as an airport, has no effect.
- The savings comments in the activation handlers (30-50, 20-35, 25-40, 15-25 kg) give
  exclusive upper ends. The ranges the code produces, proved exact, are [30, 49], [20, 34],
  [25, 39] and [15, 24].
- The dashboard endpoints report failure as `{ error }` with status 500, while the other
  endpoints use `{ success, message }`.

## Model

| member | source | states |
|---|---|---|
| Auth.AuthManager.constructor | frontend/lib/auth.ts:19-24 | a new manager holds `{user: null, selectedAirport: null, isAuthenticated: false}`, no listeners, and satisfies the invariant |
| Auth.AuthManager.Subscribe | frontend/lib/auth.ts:33-35 | the listener is appended after every earlier registration; state and log unchanged; the returned unsubscriber names that listener |
| Auth.AuthManager.Unsubscribe | frontend/lib/auth.ts:35-37 | the listener list becomes the filter that drops every registration of that listener; state and log unchanged |
| Auth.AuthManager.Notify | frontend/lib/auth.ts:40-42 | the log grows by exactly one call per registration, in registration order, each carrying the current state; state and listeners unchanged |
| Auth.AuthManager.Login | frontend/lib/auth.ts:44-51 | user set, authenticated, airport kept; the invariant holds after; exactly one broadcast of the new state |
| Auth.AuthManager.SelectAirport | frontend/lib/auth.ts:53-59 | only the airport changes, whether or not anyone is signed in; the invariant is preserved; exactly one broadcast of the new state |
| Auth.AuthManager.Logout | frontend/lib/auth.ts:61-68 | the state is exactly the initial state from any prior state; exactly one broadcast of it |
| Auth.AuthManager.GetState | frontend/lib/auth.ts:70-72 | returns the state most recently assigned, in which authenticated holds iff a user is present |
| Auth.AuthManagerStatics.GetInstance | frontend/lib/auth.ts:26-31 | the first call creates a fresh manager in the initial state; every later call returns that same instance |
| Auth.WithoutCount | frontend/lib/auth.ts:36 | after unsubscribing `l`, `l` has no registration left and every other listener keeps all of its registrations |
| Auth.WithoutAppend | frontend/lib/auth.ts:36 | the filter works piece by piece, so the remaining listeners keep their order |
| Auth.WithoutAbsent | frontend/lib/auth.ts:36 | unsubscribing a listener that is not registered leaves the list as it is |
| Auth.WithoutIdempotent | frontend/lib/auth.ts:35-37 | calling the same unsubscribe twice has the effect of calling it once |
| Auth.BroadcastInOrder | frontend/lib/auth.ts:41 | the k-th call of a notification goes to the k-th registration and carries the current state |
| Auth.BroadcastCount | frontend/lib/auth.ts:41 | each listener is called once per registration with the current state |
| Auth.BroadcastOnlyState | frontend/lib/auth.ts:41 | a notification passes no state other than the current one |
| Auth.UnsubscribedHearsNothing | frontend/lib/auth.ts:35-42 | after unsubscribing `l`, a notification reaches `l` zero times and every other listener as often as before |
| AirportSelection.CheckAccess | frontend/app/airport-selection/page.tsx:48-60 | input is refused as missing iff the airport or the PIN is empty; access is granted iff both are non-empty and the PIN equals the table entry exactly |
| AirportSelection.PinTable | frontend/app/airport-selection/page.tsx:17-21 | Riyadh opens with exactly "5555", Dammam with "6666", Jeddah with "7777" |
| AirportSelection.UnknownAirportRefused | frontend/app/airport-selection/page.tsx:54-56 | a name outside the table has no PIN, so every non-empty PIN is refused as invalid |
| AirportSelection.OfferedAirportsHavePins | frontend/app/airport-selection/page.tsx:17-27 | every airport in the offered list is a key of the PIN table and can be unlocked |
| AirportSelection.EnabledSubmitHasInput | frontend/app/airport-selection/page.tsx:141 | when the submit button is enabled the empty-input check cannot fire |
| AirportSelection.AirportSelectionPage.constructor | frontend/app/airport-selection/page.tsx:30-33 | the form starts empty, not loading, with no error |
| AirportSelection.AirportSelectionPage.GuardSession | frontend/app/airport-selection/page.tsx:37-41 | a visitor who is not signed in is sent to the login page; otherwise nothing happens |
| AirportSelection.AirportSelectionPage.HandleSubmit | frontend/app/airport-selection/page.tsx:43-73 | loading ends on every path; the error is the missing-input message, the invalid-PIN message, or cleared on success; only a granted check calls `selectAirport` with exactly the chosen name, notifies once and navigates to the dashboard; otherwise the session store is untouched |
| Signup.MissingFrom | frontend/app/api/auth/signup/route.ts:8-9 | the missing fields keep the order of the required-field list |
| Signup.MissingFromMembers | frontend/app/api/auth/signup/route.ts:9 | a field is reported missing iff it is required and its value is falsy or absent |
| Signup.Post | frontend/app/api/auth/signup/route.ts:3-36 | unparsable or null body: 500 "Server error"; any missing field: 400 with "Missing required fields: " and the names joined by ", "; otherwise 200, success, "Account created successfully", and a user copying employeeNumber, name, organization and jobTitle and nothing else of the input |
| Signup.MissingFieldsNamed | frontend/app/api/auth/signup/route.ts:11-16 | every missing field is named in the 400 message |
| Signup.CompleteFormAccepted | frontend/app/api/auth/signup/route.ts:18-32 | an object with a truthy value for every required field is accepted |
| Signup.OnlyPasswordMissing | frontend/app/api/auth/signup/route.ts:8-16 | with only the password absent the message is exactly "Missing required fields: password" |
| Login.Post | frontend/app/api/auth/login/route.ts:3-29 | unparsable or null body: 500 "Server error"; for an object body, 401 "Invalid employee number or password" iff the employee number or the password is absent or falsy; with both truthy, a value without a usable `includes` gives 500, otherwise 200 "Login successful" with id "1", the employee number echoed, organization fixed, and the admin or technician profile chosen by whether `includes("admin")` holds |
| Login.ArrayEmployeeNumber | frontend/app/api/auth/login/route.ts:13 | an array employee number is tested for an element equal to "admin": `["admin"]` gets the administrator profile, `["sysadmin"]` does not |
| Login.MissingCredentialRefused | frontend/app/api/auth/login/route.ts:8-25 | an object without an employee number or without a password is answered with exactly 401 and "Invalid employee number or password" |
| Login.StringLogin | frontend/app/api/auth/login/route.ts:8-22 | with a string employee number, success iff it is non-empty and the password is truthy (its value is not checked); id "1", organization fixed, employee number echoed; name "Admin User" and job title "System Administrator" iff it contains "admin", else "John Doe" and "Airport Technician"; failure is 401 |
| Login.NonStringEmployeeNumberIsServerError | frontend/app/api/auth/login/route.ts:10-28 | a truthy employee number that is neither string nor array makes the handler throw, answered by 500 |
| Login.AdminTestIsCaseSensitive | frontend/app/api/auth/login/route.ts:13-15 | "ADMIN7" gets the technician profile and "sysadmin" the administrator profile |
| ActivateGpu.Post | frontend/app/api/flights/activate_gpu/route.ts:3-27 | unparsable or null body: 500 "Failed to activate GPU"; falsy or absent flightNumber: 400 "Flight number is required"; otherwise 200 with the flight number echoed, message "GPU successfully activated for flight " + its text, co2 in [30, 49] and fuel in [20, 34] |
| ActivateGpu.SavingsRangesExact | frontend/app/api/flights/activate_gpu/route.ts:19-22 | every value in [30, 49] and [20, 34] can be reported, so the ranges are exact |
| ActivateGpu.StringFlightMessage | frontend/app/api/flights/activate_gpu/route.ts:14-17 | a string flight number appears verbatim in the success message |
| ActivateAcu.Post | frontend/app/api/flights/activate_acu/route.ts:3-32 | unparsable or null body: 500 "Failed to activate ACU"; falsy or absent flightNumber: 400 "Flight number is required"; otherwise 200 with the flight number echoed, message "ACU successfully activated for flight " + its text, co2 in [25, 39], fuel in [15, 24] and acuDetails always 22°C / High / 95% |
| ActivateAcu.SavingsRangesExact | frontend/app/api/flights/activate_acu/route.ts:19-22 | every value in [25, 39] and [15, 24] can be reported, so the ranges are exact |
| ActivateAcu.StringFlightMessage | frontend/app/api/flights/activate_acu/route.ts:14-17 | a string flight number appears verbatim in the success message |
| Airports.Resolve | frontend/app/api/dashboard/daily_reports/route.ts:33 | Riyadh, Jeddah and Dammam select their own entry; an absent or any other airport selects Riyadh |
| DailyReports.Get | frontend/app/api/dashboard/daily_reports/route.ts:3-43 | 200 with the resolved airport's figures, the airport parameter echoed as requested (possibly absent) and totalFlights equal to todaysFlights; 500 "Failed to fetch daily reports" on failure |
| DailyReports.UnknownAirportGetsRiyadh | frontend/app/api/dashboard/daily_reports/route.ts:33-39 | an absent or unknown airport gets Riyadh's figures but keeps its own label |
| Sustainability.Get | frontend/app/api/dashboard/sustainability/route.ts:3-163 | 200 with the resolved airport's data, consistent as below, with the airport parameter echoed as requested; 500 "Failed to fetch sustainability data" on failure |
| Sustainability.TableConsistent | frontend/app/api/dashboard/sustainability/route.ts:9-151 | for every airport the headline totals equal May's figures, the emission trend repeats the monthly trend, both monthly series strictly increase, and every listed flight's destination is that airport |
| Sustainability.StepIncreasingIsStrict | frontend/app/api/dashboard/sustainability/route.ts:13-19 | a series in which each month exceeds the one before is strictly increasing over any two months |
| Sustainability.UnknownAirportGetsRiyadh | frontend/app/api/dashboard/sustainability/route.ts:153-159 | an absent or unknown airport gets Riyadh's data, whose flights all land in Riyadh, but keeps its own label |
| Strings.IncludesIffOccurs | frontend/app/api/auth/login/route.ts:13 | the modelled `includes` holds iff the text occurs at some index |
| Strings.JoinIncludesEach | frontend/app/api/auth/signup/route.ts:13 | every part can be found in the joined text |
| Strings.JoinSnoc | frontend/app/api/auth/signup/route.ts:13 | joining one more part appends the separator and that part |
| Strings.NatTextRoundTrip | frontend/app/api/flights/activate_gpu/route.ts:16 | the decimal rendering of a number used in a template literal reads back as that number |

## Left out

- The per-flight activation controller (pending requests, activated flags, the success message) lives in the flights view, which is not part of this model.
- The sign-up page, the sidebar and the `useAuth` hook are presentation and wiring. The hook's one subscribe/unsubscribe pair is `Subscribe` followed by `Unsubscribe`.
- Rendering, the 1-second and 1.2/1.5-second delays, `Date` values, router navigation beyond the target path, `NextResponse` serialisation and the `API_BASE` environment lookup are left out. Clock readings are parameters.
- `Math.random()` is floating point. Each draw is an integer parameter in `[0, n)`, so only the integer ranges are proved.
- JSON numbers are integers here. Fractions, `-0` and the decimal rendering of fractions are not modelled.
- Json.ToText: numbers are unbounded integers, so the loss of precision of integers above 2^53 when JSON is parsed into doubles, and JavaScript's exponent form for magnitudes of 1e21 and more (`${1e21}` is "1e+21"), are not modelled. For such a numeric flight number the echoed value and the activation message differ from the program's.
- Lookups that hit a JavaScript prototype property (an airport or field named `toString`, `constructor`, ...) are not modelled. Every name outside the three airport keys is treated as absent.
- Listeners are opaque. A listener that throws or changes the store from inside `notify` is not modelled. So the airport page's `catch` branch ("Failed to validate airport access") cannot be reached in the model.
- React's batching of state updates is not modelled. Each setter takes effect at once, in program order, and the intermediate `isLoading = true` during the delay is not observable.
- The PIN field's `maxLength={4}` and the restriction of the select control to the offered airports are not modelled. `HandleSubmit` accepts any strings.
- `authManager`, created by `getInstance()` at module load (frontend/lib/auth.ts:75), is the manager that the first `GetInstance` returns.
