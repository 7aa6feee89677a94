/**
 * The mock account-creation endpoint (`frontend/app/api/auth/signup/route.ts`):
 * checks that every required field is present and echoes the public part of
 * the new account. Nothing is stored.
 */
module Signup {
  import opened Wrappers
  import Strings
  import Json

  /** The required fields, in the order a missing-fields message lists them. */
  const RequiredFields: seq<string> :=
    ["name", "birthdate", "nationalId", "organization", "jobTitle", "employeeNumber", "password"]

  const MissingPrefix := "Missing required fields: "
  const CreatedMessage := "Account created successfully"
  const ServerError := "Server error"

  /**
   * The account echoed back: the submitted values of four fields, plus an id
   * and a creation time taken from the clock. The password, national id and
   * birthdate are not part of it.
   */
  datatype NewUser = NewUser(id: string, employeeNumber: Json.Value, name: Json.Value,
                             organization: Json.Value, jobTitle: Json.Value, createdAt: string)

  datatype SignupReply = SignupReply(success: bool, message: string, user: Option<NewUser>)

  /** `s` is `t` with some elements dropped, the rest kept in order. */
  predicate IsSubsequence(s: seq<string>, t: seq<string>)
    decreases |t|
  {
    if t == [] then s == []
    else (s != [] && s[0] == t[0] && IsSubsequence(s[1..], t[1..])) || IsSubsequence(s, t[1..])
  }

  /** `fields.filter((field) => !userData[field])`. */
  function MissingFrom(fields: seq<string>, userData: Json.Value): (missing: seq<string>)
    requires !userData.Null?
    ensures IsSubsequence(missing, fields)
  {
    if fields == [] then []
    else if !Json.Present(Json.Get(userData, fields[0]))
    then [fields[0]] + MissingFrom(fields[1..], userData)
    else MissingFrom(fields[1..], userData)
  }

  /** A field is reported missing exactly when it is required and its value is falsy. */
  lemma {:induction false} MissingFromMembers(fields: seq<string>, userData: Json.Value, f: string)
    requires !userData.Null?
    ensures f in MissingFrom(fields, userData) <==> f in fields && !Json.Present(Json.Get(userData, f))
  {
    if fields != [] {
      MissingFromMembers(fields[1..], userData, f);
      assert fields == [fields[0]] + fields[1..];
    }
  }

  /**
   * `POST /api/auth/signup`. `body` is what `request.json()` produced, `None`
   * when it rejected; `now` and `createdAt` stand for `Date.now()` and
   * `new Date().toISOString()`.
   */
  function Post(body: Option<Json.Value>, now: string, createdAt: string): (r: Json.Response<SignupReply>)
    ensures (body.None? || body.value.Null?) ==>
              r == Json.Response(500, SignupReply(false, ServerError, None))
    ensures body.Some? && !body.value.Null? ==>
              var missing := MissingFrom(RequiredFields, body.value);
              if missing != [] then
                r == Json.Response(400, SignupReply(false, MissingPrefix + Strings.Join(missing, ", "), None))
              else
                && r.status == Json.OK && r.body.success && r.body.message == CreatedMessage
                && r.body.user.Some?
                && Json.Get(body.value, "employeeNumber") == Some(r.body.user.value.employeeNumber)
                && Json.Get(body.value, "name") == Some(r.body.user.value.name)
                && Json.Get(body.value, "organization") == Some(r.body.user.value.organization)
                && Json.Get(body.value, "jobTitle") == Some(r.body.user.value.jobTitle)
  {
    match body
    case None => Json.Response(500, SignupReply(false, ServerError, None))
    case Some(userData) =>
      if userData.Null? then
        // reading a property of null throws a TypeError, caught as a server error
        Json.Response(500, SignupReply(false, ServerError, None))
      else
        var missing := MissingFrom(RequiredFields, userData);
        if |missing| > 0 then
          Json.Response(400, SignupReply(false, MissingPrefix + Strings.Join(missing, ", "), None))
        else
          MissingFromMembers(RequiredFields, userData, "name");
          MissingFromMembers(RequiredFields, userData, "organization");
          MissingFromMembers(RequiredFields, userData, "jobTitle");
          MissingFromMembers(RequiredFields, userData, "employeeNumber");
          var newUser := NewUser(now, userData.fields["employeeNumber"], userData.fields["name"],
                                 userData.fields["organization"], userData.fields["jobTitle"], createdAt);
          Json.Response(Json.OK, SignupReply(true, CreatedMessage, Some(newUser)))
  }

  /** Every missing field is named in the rejection message. */
  lemma MissingFieldsNamed(userData: Json.Value, field: string)
    requires !userData.Null?
    requires field in RequiredFields && !Json.Present(Json.Get(userData, field))
    ensures Post(Some(userData), "", "").status == 400
    ensures Strings.Includes(Post(Some(userData), "", "").body.message, field)
  {
    var missing := MissingFrom(RequiredFields, userData);
    MissingFromMembers(RequiredFields, userData, field);
    var k :| 0 <= k < |missing| && missing[k] == field;
    Strings.JoinIncludesEach(missing, ", ", k);
    Strings.IncludesAfterPrefix(MissingPrefix, Strings.Join(missing, ", "), field);
  }

  /** An object carrying a truthy value for every required field is accepted. */
  lemma CompleteFormAccepted(fields: map<string, Json.Value>, now: string, createdAt: string)
    requires forall f :: f in RequiredFields ==> f in fields && Json.Truthy(fields[f])
    ensures Post(Some(Json.Obj(fields)), now, createdAt).status == Json.OK
    ensures Post(Some(Json.Obj(fields)), now, createdAt).body.success
  {
    var missing := MissingFrom(RequiredFields, Json.Obj(fields));
    if missing != [] {
      MissingFromMembers(RequiredFields, Json.Obj(fields), missing[0]);
    }
  }

  /** Only the password missing: the message names exactly that field. */
  lemma OnlyPasswordMissing(fields: map<string, Json.Value>)
    requires forall k :: 0 <= k < 6 ==> RequiredFields[k] in fields && Json.Truthy(fields[RequiredFields[k]])
    requires "password" !in fields
    ensures Post(Some(Json.Obj(fields)), "", "").body.message == "Missing required fields: password"
  {
    var obj := Json.Obj(fields);
    var tail := RequiredFields[6..];
    assert MissingFrom(tail, obj) == ["password"];
    var k := 6;
    while k > 0
      invariant 0 <= k <= 6
      invariant MissingFrom(RequiredFields[k..], obj) == ["password"]
    {
      assert RequiredFields[k - 1..][1..] == RequiredFields[k..];
      k := k - 1;
    }
  }
}
