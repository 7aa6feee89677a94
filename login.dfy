/**
 * The mock sign-in endpoint (`frontend/app/api/auth/login/route.ts`): any
 * request with both an employee number and a password is accepted, and an
 * employee number containing "admin" gets the administrator profile.
 */
module Login {
  import opened Wrappers
  import Strings
  import Json

  const SuccessMessage := "Login successful"
  const RejectMessage := "Invalid employee number or password"
  const ServerError := "Server error"
  const Organization := "WAQET Airport Operations"

  /** The user the endpoint returns; `employeeNumber` is echoed as it was sent. */
  datatype LoginUser = LoginUser(id: string, employeeNumber: Json.Value, name: string,
                                 organization: string, jobTitle: string)

  datatype LoginReply = LoginReply(success: bool, message: string, user: Option<LoginUser>)

  /**
   * `employeeNumber.includes("admin")`: a substring test on a string, an element
   * test on an array, and a TypeError (`None`) on any other truthy value, which
   * has no `includes` method.
   */
  function IncludesAdmin(employeeNumber: Json.Value): Option<bool> {
    match employeeNumber
    case Str(s) => Some(Strings.Includes(s, "admin"))
    case Arr(items) => Some(Json.Str("admin") in items)
    case _ => None
  }

  /** `POST /api/auth/login`; `body` is `None` when `request.json()` rejected. */
  function Post(body: Option<Json.Value>): (r: Json.Response<LoginReply>)
    ensures r.status == Json.OK <==> r.body.success
    ensures r.body.success <==> r.body.user.Some?
    ensures r.status == 401 ==> r.body == LoginReply(false, RejectMessage, None)
    ensures r.status == 500 ==> r.body == LoginReply(false, ServerError, None)
    ensures r.status in {Json.OK, 401, 500}
    ensures (body.None? || body.value.Null?) ==> r == Json.Response(500, LoginReply(false, ServerError, None))
    ensures body.Some? && !body.value.Null? ==>
              var employeeNumber := Json.Get(body.value, "employeeNumber");
              var password := Json.Get(body.value, "password");
              && (r.status == 401 <==> !(Json.Present(employeeNumber) && Json.Present(password)))
              && (Json.Present(employeeNumber) && Json.Present(password) ==>
                    match IncludesAdmin(employeeNumber.value)
                    case None => r == Json.Response(500, LoginReply(false, ServerError, None))
                    case Some(admin) =>
                      && r.status == Json.OK && r.body.message == SuccessMessage
                      && r.body.user == Some(LoginUser("1", employeeNumber.value,
                                                       if admin then "Admin User" else "John Doe",
                                                       Organization,
                                                       if admin then "System Administrator" else "Airport Technician")))
  {
    match body
    case None => Json.Response(500, LoginReply(false, ServerError, None))
    case Some(v) =>
      if v.Null? then
        // destructuring null throws a TypeError
        Json.Response(500, LoginReply(false, ServerError, None))
      else
        var employeeNumber := Json.Get(v, "employeeNumber");
        var password := Json.Get(v, "password");
        if Json.Present(employeeNumber) && Json.Present(password) then
          match IncludesAdmin(employeeNumber.value)
          case None => Json.Response(500, LoginReply(false, ServerError, None))
          case Some(admin) =>
            var user := LoginUser("1", employeeNumber.value,
                                  if admin then "Admin User" else "John Doe",
                                  Organization,
                                  if admin then "System Administrator" else "Airport Technician");
            Json.Response(Json.OK, LoginReply(true, SuccessMessage, Some(user)))
        else
          Json.Response(401, LoginReply(false, RejectMessage, None))
  }

  /**
   * With a string employee number the decision depends only on both fields
   * being non-empty, whatever the password says; the profile is chosen by the
   * case-sensitive substring "admin".
   */
  lemma StringLogin(employeeNumber: string, password: Json.Value, rest: map<string, Json.Value>)
    ensures var fields := rest["employeeNumber" := Json.Str(employeeNumber)]["password" := password];
            var r := Post(Some(Json.Obj(fields)));
            && (r.body.success <==> employeeNumber != "" && Json.Truthy(password))
            && (r.body.success ==>
                  && r.body.message == SuccessMessage
                  && r.body.user.value.id == "1"
                  && r.body.user.value.employeeNumber == Json.Str(employeeNumber)
                  && r.body.user.value.organization == Organization
                  && (r.body.user.value.name == "Admin User" <==> Strings.Includes(employeeNumber, "admin"))
                  && (r.body.user.value.name == "John Doe" <==> !Strings.Includes(employeeNumber, "admin"))
                  && (r.body.user.value.jobTitle == "System Administrator" <==> Strings.Includes(employeeNumber, "admin"))
                  && (r.body.user.value.jobTitle == "Airport Technician" <==> !Strings.Includes(employeeNumber, "admin")))
            && (!r.body.success ==> r.status == 401)
  {
  }

  /** An array employee number is tested for an element equal to "admin", not for a substring. */
  lemma ArrayEmployeeNumber(password: Json.Value)
    requires Json.Truthy(password)
    ensures Post(Some(Json.Obj(map["employeeNumber" := Json.Arr([Json.Str("admin")]), "password" := password])))
              .body.user.value.name == "Admin User"
    ensures Post(Some(Json.Obj(map["employeeNumber" := Json.Arr([Json.Str("sysadmin")]), "password" := password])))
              .body.user.value.name == "John Doe"
  {
  }

  /** An absent employee number or password is refused with 401, whatever else is sent. */
  lemma MissingCredentialRefused(fields: map<string, Json.Value>)
    requires "employeeNumber" !in fields || "password" !in fields
    ensures Post(Some(Json.Obj(fields))) == Json.Response(401, LoginReply(false, RejectMessage, None))
  {
  }

  /** A truthy employee number that is neither a string nor an array makes the handler throw. */
  lemma NonStringEmployeeNumberIsServerError(employeeNumber: Json.Value, password: Json.Value)
    requires Json.Truthy(employeeNumber) && Json.Truthy(password)
    requires !employeeNumber.Str? && !employeeNumber.Arr?
    ensures Post(Some(Json.Obj(map["employeeNumber" := employeeNumber, "password" := password]))).status == 500
  {
  }

  /** "ADMIN" is not "admin": the profile test is case-sensitive. */
  lemma AdminTestIsCaseSensitive()
    ensures Post(Some(Json.Obj(map["employeeNumber" := Json.Str("ADMIN7"), "password" := Json.Str("x")])))
              .body.user.value.name == "John Doe"
    ensures Post(Some(Json.Obj(map["employeeNumber" := Json.Str("sysadmin"), "password" := Json.Str("x")])))
              .body.user.value.name == "Admin User"
  {
    UpperCaseIsNotAdmin();
    assert Strings.StartsWith("admin", "admin");
    assert Strings.Includes("sysadmin"[3..], "admin");
    assert Strings.Includes("sysadmin", "admin");
  }

  lemma UpperCaseIsNotAdmin()
    ensures !Strings.Includes("ADMIN7", "admin")
  {
    var s := "ADMIN7";
    assert !Strings.Includes(s[6..], "admin");
    assert !Strings.Includes(s[5..], "admin");
    assert !Strings.Includes(s[4..], "admin");
    assert !Strings.Includes(s[3..], "admin");
    assert s[2..][1..] == s[3..];
    assert !Strings.Includes(s[2..], "admin");
    assert s[1..][..5] == "DMIN7" && s[1..][1..] == s[2..];
    assert !Strings.Includes(s[1..], "admin");
    assert s[..5] == "ADMIN";
  }
}
