/** `updateAdminSchema` and `updateAdminAction`: the administrator edits their own record. */
module UpdateAdmin {
  import opened Wrappers
  import opened Text
  import opened JsNumber
  import opened Json
  import opened Http
  import opened Forms
  import opened Checks

  /** An age as the page holds it: text typed into the form, or a number from the server. */
  datatype Age = AgeText(text: string) | AgeNumber(number: real)

  /** The `Admin` record of the source's types. */
  datatype Admin = Admin(id: Option<string>, name: string, email: string, phno: string, age: Age,
                         gender: string, status: Option<string>)

  /** The `errors` record of `UpdateAdminFormState`; an empty sequence is an absent channel. */
  datatype Errors = Errors(name: seq<string>, age: seq<string>, email: seq<string>, phno: seq<string>,
                           gender: seq<string>, status: seq<string>, formErrors: seq<string>)

  /** `errors: {}`. */
  const Clean := Errors([], [], [], [], [], [], [])

  const Fallback := Fallbacks("Update failed. Please try again.",
                              "Error occurred during update. Please try again.", Internal)

  /** zod's own message for a value outside `z.enum(['ACTIVE', 'INACTIVE'])`. */
  const StatusMessage := "Invalid option: expected one of \"ACTIVE\"|\"INACTIVE\""

  /** `!isNaN(num) && num >= 10 && num <= 120`, where text is first given to `Number`. */
  predicate AgeAccepted(age: Age)
  {
    match age
    case AgeText(s) => InRange(ToNumber(s), 10.0, 120.0)
    case AgeNumber(n) => 10.0 <= n <= 120.0
  }

  /** What the schema demands of the record; `id` is not checked at all. */
  predicate Valid(a: Admin, isEmail: string -> bool)
  {
    a.name != "" && AgeAccepted(a.age) && isEmail(a.email) && |a.phno| == 10 && AllDigits(a.phno)
    && a.gender in Genders && (a.status.Some? ==> a.status.value in Statuses)
  }

  /** `updateAdminSchema.safeParse(admin)` followed by `flatten().fieldErrors`. */
  function Validate(a: Admin, isEmail: string -> bool): (r: Errors)
    ensures r == Clean <==> Valid(a, isEmail)
    ensures r.formErrors == []
    ensures r.name != [] ==> r.name == ["Name is required"]
    ensures r.age != [] ==> r.age == ["Age must be between 10 and 120"]
    ensures r.email != [] ==> r.email == ["Valid Email address is required"]
    ensures JsLength(a.phno) != 10 ==> r.phno != [] && r.phno[0] == "Phone number must be 10 digits"
    ensures JsLength(a.phno) == 10 && !AllDigits(a.phno) ==> r.phno == ["Phone number must contain only digits"]
    ensures r.gender != [] ==> r.gender == ["Select a valid gender"]
    ensures r.status != [] ==> r.status == [StatusMessage]
  {
    Errors(Required(a.name, "Name is required"),
           Test(AgeAccepted(a.age), "Age must be between 10 and 120"),
           Email(a.email, isEmail, "Valid Email address is required"),
           ExactDigits(a.phno, 10, "Phone number must be 10 digits", "Phone number must contain only digits"),
           OneOf(a.gender, Genders, "Select a valid gender"),
           if a.status.Some? then OneOf(a.status.value, Statuses, StatusMessage) else [],
           [])
  }

  /** The record as serialised: absent optional fields are left out, the age keeps its type. */
  function Body(a: Admin): (j: Json)
    ensures j.Obj?
    ensures j.props.Keys == {"name", "email", "phno", "age", "gender"}
      + (if a.id.Some? then {"id"} else {}) + (if a.status.Some? then {"status"} else {})
    ensures a.id.Some? ==> j.props["id"] == Str(a.id.value)
    ensures a.status.Some? ==> j.props["status"] == Str(a.status.value)
    ensures j.props["name"] == Str(a.name) && j.props["gender"] == Str(a.gender)
    ensures j.props["email"] == Str(a.email) && j.props["phno"] == Str(a.phno)
    ensures a.age.AgeText? ==> j.props["age"] == Str(a.age.text)
    ensures a.age.AgeNumber? ==> j.props["age"] == Num(a.age.number)
  {
    var age := match a.age case AgeText(s) => Str(s) case AgeNumber(n) => Num(n);
    var props := map["name" := Str(a.name), "email" := Str(a.email), "phno" := Str(a.phno),
                     "age" := age, "gender" := Str(a.gender)];
    var withId := if a.id.Some? then props["id" := Str(a.id.value)] else props;
    Obj(if a.status.Some? then withId["status" := Str(a.status.value)] else withId)
  }

  /** The PUT: the submitted record as it is (not zod's parsed copy), keyed by `adminEmail`. */
  function Request(a: Admin, adminEmail: string, jwt: string): (q: Request)
    ensures q.verb == Put && q.url == Backend("user") && q.bearer == Some(jwt)
    ensures q.params == map["adminEmail" := Str(adminEmail)]
    ensures q.body == Body(a)
  {
    Http.Request(Put, Backend("user"), Some(jwt), map["adminEmail" := Str(adminEmail)], Body(a))
  }

  const InvalidToken := "Invalid JWT. Please login again."

  /**
   * `updateAdminAction(prevState, admin, adminEmail, encryptedJwt)` with `jwt` the decrypted
   * token and `outcome` the outcome of the PUT. The result carries no timestamp.
   */
  function Submit(a: Admin, adminEmail: string, jwt: string, outcome: Outcome, isEmail: string -> bool): (r: Submission<Errors>)
    ensures !Valid(a, isEmail) ==> r.request == None && r.state.errors == Validate(a, isEmail)
    ensures Valid(a, isEmail) && jwt == "" ==>
      r.request == None && r.state.errors == Clean.(formErrors := [InvalidToken])
    ensures Valid(a, isEmail) && jwt != "" ==>
      r.request == Some(Request(a, adminEmail, jwt))
      && r.state.errors == Clean.(formErrors := Settle(outcome, 200, Guarded, Fallback))
    ensures r.state.success <==> Valid(a, isEmail) && jwt != "" && outcome.Response? && outcome.status == 200
    ensures r.state.success <==> r.state.errors == Clean
    ensures r.state.timestamp == None
  {
    var invalid := Validate(a, isEmail);
    if invalid != Clean then Submission(State(invalid, false, None), None)
    else if jwt == "" then Submission(State(Clean.(formErrors := [InvalidToken]), false, None), None)
    else
      var formErrors := Settle(outcome, 200, Guarded, Fallback);
      Submission(State(Clean.(formErrors := formErrors), formErrors == [], None), Some(Request(a, adminEmail, jwt)))
  }

  /** Field errors are reported whatever the token, since validation comes first. */
  lemma ValidationFirst(a: Admin, adminEmail: string, jwt: string, jwt': string, outcome: Outcome, isEmail: string -> bool)
    requires !Valid(a, isEmail)
    ensures Submit(a, adminEmail, jwt, outcome, isEmail) == Submit(a, adminEmail, jwt', outcome, isEmail)
  {
  }

  /** A digit string is an accepted age exactly when its value is from 10 to 120. */
  lemma AgeDigits(s: string)
    requires IsDigits(s)
    ensures AgeAccepted(AgeText(s)) <==> 10 <= Value(s) <= 120
  {
    DigitsToNumber(s);
  }

  /** Examples of `AgeDigits`: the bounds are inclusive, 9 and 121 are refused, 10 and 120 accepted. */
  lemma AgeBounds()
    ensures !AgeAccepted(AgeText("9")) && AgeAccepted(AgeText("10"))
    ensures AgeAccepted(AgeText("120")) && !AgeAccepted(AgeText("121"))
  {
    AgeDigits("9");
    AgeDigits("10");
    AgeDigits("120");
    AgeDigits("121");
  }

  /** An example of `AgeAccepted` on text `JsNumber.ToNumber` reads as NaN: it is refused. */
  lemma AgeNotNumeric()
    ensures !AgeAccepted(AgeText("abc"))
  {
    assert TrimStart("abc") == "abc" && TrimEnd("abc") == "abc";
    assert Unsigned("abc") == NaN by {
      assert ExponentMark("abc") == 3;
      assert "abc"[..3] == "abc";
      assert !AllDigits("abc"[..IndexOf("abc", '.')]);
    }
  }

  /**
   * An example of what `JsNumber.ToNumber` allows beyond `AgeDigits`: `Number` ignores surrounding
   * white space, so a padded age is accepted.
   */
  lemma AgePadded()
    ensures AgeAccepted(AgeText(" 12"))
  {
    assert TrimStart(" 12") == TrimStart(" 12"[1..]) && " 12"[1..] == "12";
    DigitsToNumber("12");
  }

  /**
   * An example of what `JsNumber.ToNumber` allows beyond `AgeDigits`: `Number` reads exponent
   * notation, so "1e1" is the accepted age 10.
   */
  lemma AgeExponent()
    ensures AgeAccepted(AgeText("1e1"))
  {
    var t := "1e1";
    assert TrimStart(t) == t && TrimEnd(t) == t;
    assert ExponentMark(t) == 1 by { assert IndexOf(t, 'e') == 1; }
    assert t[..1] == "1" && t[2..] == "1";
    assert Mantissa("1") == Some(1.0) by { assert IndexOf("1", '.') == 1; }
    assert Exponent("1") == Some(1);
  }
}
