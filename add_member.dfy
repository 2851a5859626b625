/** `addMemberSchema` and `addMemberAction`: register a new gym member. */
module AddMember {
  import opened Wrappers
  import opened Text
  import opened JsNumber
  import opened Json
  import opened Http
  import opened Forms
  import opened Checks

  /** The submitted form fields, all strings. */
  datatype Form = Form(name: string, age: string, phno: string, email: string, gender: string,
                       membershipName: string, trainerId: string)

  /** The `errors` record of `AddMemberFormState`; an empty sequence is an absent channel. */
  datatype Errors = Errors(name: seq<string>, age: seq<string>, phno: seq<string>, email: seq<string>,
                           gender: seq<string>, membershipName: seq<string>, trainerId: seq<string>,
                           formErrors: seq<string>)

  /** `errors: {}`. */
  const Clean := Errors([], [], [], [], [], [], [], [])

  const Fallback := Fallbacks("Failed to add member. Please try again.",
                              "Error occurred during adding member. Please try again.", Internal)

  /** What the schema demands of each field, stated without zod's checks. */
  predicate Valid(f: Form, isEmail: string -> bool)
  {
    f.name != "" && IsDigits(f.age) && HasNonZeroDigit(f.age) && IsTenDigits(f.phno)
    && f.email != "" && isEmail(f.email) && f.gender in Genders && f.membershipName != ""
    && IsDigits(f.trainerId)
  }

  /** `addMemberSchema.safeParse(...)` followed by `flatten().fieldErrors`. */
  function Validate(f: Form, isEmail: string -> bool): (r: Errors)
    ensures r == Clean <==> Valid(f, isEmail)
    ensures r.formErrors == []
    ensures r.name != [] ==> r.name == ["Member name is required"]
    ensures f.age == "" ==> r.age == ["Age is required", "Age must be a number"]
    ensures IsDigits(f.age) && !HasNonZeroDigit(f.age) ==> r.age == ["Age must be positive"]
    ensures r.gender != [] ==> r.gender == ["Gender is required"]
    ensures r.membershipName != [] ==> r.membershipName == ["Membership is required"]
    ensures f.trainerId == "" ==> r.trainerId == ["Trainer is required", "Trainer is required"]
  {
    Errors(Required(f.name, "Member name is required"),
           PositiveWhole(f.age, "Age is required", "Age must be a number", "Age must be positive"),
           TenDigits(f.phno, "Phone number is required", "Phone number must be 10 digits"),
           RequiredEmail(f.email, isEmail, "Email is required", "Invalid email address"),
           OneOf(f.gender, Genders, "Gender is required"),
           Required(f.membershipName, "Membership is required"),
           WholeNumber(f.trainerId, "Trainer is required", "Trainer is required"),
           [])
  }

  /**
   * The POST built from the parsed fields. `Number` of a validated age, phone or trainer id is its
   * decimal value (`Http.WireDigits`), so the phone number loses any leading zero. The member's
   * details go in the body; the membership and trainer go only as query parameters.
   */
  function Request(f: Form, jwt: string): (q: Request)
    requires IsDigits(f.age) && IsTenDigits(f.phno) && IsDigits(f.trainerId)
    ensures q.verb == Post && q.url == Backend("user/addMember") && q.bearer == Some(jwt)
    ensures q.body.Obj? && q.body.props.Keys == {"name", "age", "phno", "email", "gender"}
    ensures q.body.props["name"] == Str(f.name) && q.body.props["email"] == Str(f.email)
    ensures q.body.props["gender"] == Str(f.gender)
    ensures q.body.props["age"] == Num(Value(f.age) as real)
    ensures q.body.props["phno"] == Num(Value(f.phno) as real)
    ensures q.params == map["membershipName" := Str(f.membershipName), "trainerId" := Num(Value(f.trainerId) as real)]
  {
    Http.Request(Post, Backend("user/addMember"), Some(jwt),
      map["membershipName" := Str(f.membershipName), "trainerId" := Num(Value(f.trainerId) as real)],
      Obj(map["name" := Str(f.name), "age" := Num(Value(f.age) as real), "phno" := Num(Value(f.phno) as real),
              "email" := Str(f.email), "gender" := Str(f.gender)]))
  }

  /**
   * `addMemberAction` on a form, the decrypted token `jwt`, the outcome of the POST and the clock
   * reading `now`. The token is used as it is, even when it is empty.
   */
  function Submit(f: Form, jwt: string, outcome: Outcome, isEmail: string -> bool, now: int): (r: Submission<Errors>)
    ensures !Valid(f, isEmail) ==> r.request == None && r.state.errors == Validate(f, isEmail)
    ensures Valid(f, isEmail) ==> r.request == Some(Request(f, jwt))
    ensures Valid(f, isEmail) ==> r.state.errors == Clean.(formErrors := Settle(outcome, 201, Direct, Fallback))
    ensures r.state.success <==> Valid(f, isEmail) && outcome.Response? && outcome.status == 201
    ensures r.state.success <==> r.state.errors == Clean
    ensures r.state.timestamp == Some(now)
  {
    var invalid := Validate(f, isEmail);
    if invalid != Clean then Submission(State(invalid, false, Some(now)), None)
    else
      var formErrors := Settle(outcome, 201, Direct, Fallback);
      Submission(State(Clean.(formErrors := formErrors), formErrors == [], Some(now)), Some(Request(f, jwt)))
  }

  /**
   * Examples of the general rule in `Checks.PositiveWhole`: "0" is a number but not positive,
   * "-5" fails the digit pattern, and "1" passes.
   */
  lemma AgeExamples(f: Form, isEmail: string -> bool)
    ensures Validate(f.(age := "0"), isEmail).age == ["Age must be positive"]
    ensures Validate(f.(age := "-5"), isEmail).age == ["Age must be a number"]
    ensures Validate(f.(age := "1"), isEmail).age == []
  {
    assert IsDigits("0") && !HasNonZeroDigit("0");
    assert !IsDigit("-5"[0]);
    assert IsDigits("1") && "1"[0] != '0';
  }
}
