/** `addTrainerSchema` and `addTrainerAction`: register a new trainer. */
module AddTrainer {
  import opened Wrappers
  import opened Text
  import opened JsNumber
  import opened Json
  import opened Http
  import opened Forms
  import opened Checks

  /** The submitted form fields, all strings. */
  datatype Form = Form(name: string, age: string, phno: string, email: string, salary: string,
                       gender: string, membershipName: string)

  /** The `errors` record of `AddTrainerFormState`; an empty sequence is an absent channel. */
  datatype Errors = Errors(name: seq<string>, age: seq<string>, phno: seq<string>, email: seq<string>,
                           salary: seq<string>, gender: seq<string>, membershipName: seq<string>,
                           formErrors: seq<string>)

  /** `errors: {}`. */
  const Clean := Errors([], [], [], [], [], [], [], [])

  const Fallback := Fallbacks("Failed to add trainer. Please try again.",
                              "Error occurred during adding trainer. Please try again.", Internal)

  /** What the schema demands of each field: the salary is a positive decimal numeral. */
  predicate Valid(f: Form, isEmail: string -> bool)
  {
    f.name != "" && IsDigits(f.age) && HasNonZeroDigit(f.age) && IsTenDigits(f.phno)
    && f.email != "" && isEmail(f.email) && IsDecimal(f.salary) && HasNonZeroDigit(f.salary)
    && f.gender in Genders && f.membershipName != ""
  }

  /** `addTrainerSchema.safeParse(...)` followed by `flatten().fieldErrors`. */
  function Validate(f: Form, isEmail: string -> bool): (r: Errors)
    ensures r == Clean <==> Valid(f, isEmail)
    ensures r.formErrors == []
    ensures r.name != [] ==> r.name == ["Trainer name is required"]
    ensures f.salary == "" ==> r.salary == ["Salary is required", "Salary must be a valid number"]
    ensures IsDecimal(f.salary) && !HasNonZeroDigit(f.salary) ==> r.salary == ["Salary must be positive"]
  {
    Errors(Required(f.name, "Trainer name is required"),
           PositiveWhole(f.age, "Age is required", "Age must be a number", "Age must be positive"),
           TenDigits(f.phno, "Phone number is required", "Phone number must be 10 digits"),
           RequiredEmail(f.email, isEmail, "Email is required", "Invalid email address"),
           PositiveDecimal(f.salary, "Salary is required", "Salary must be a valid number", "Salary must be positive"),
           OneOf(f.gender, Genders, "Gender is required"),
           Required(f.membershipName, "Membership is required"),
           [])
  }

  /**
   * The POST built from the parsed fields: age, phone and salary go as the numbers `Number`
   * makes of them (`Http.WireDigits`, `Http.WireDecimal`); the membership is a query parameter.
   */
  function Request(f: Form, jwt: string): (q: Request)
    requires IsDigits(f.age) && IsTenDigits(f.phno) && IsDecimal(f.salary)
    ensures q.verb == Post && q.url == Backend("user/addTrainer") && q.bearer == Some(jwt)
    ensures q.params == map["membershipName" := Str(f.membershipName)]
    ensures q.body.Obj? && q.body.props.Keys == {"name", "age", "phno", "email", "salary", "gender"}
    ensures q.body.props["name"] == Str(f.name) && q.body.props["email"] == Str(f.email)
    ensures q.body.props["gender"] == Str(f.gender)
    ensures q.body.props["age"] == Num(Value(f.age) as real)
    ensures q.body.props["phno"] == Num(Value(f.phno) as real)
    ensures q.body.props["salary"] == Num(DecimalValue(f.salary))
  {
    Http.Request(Post, Backend("user/addTrainer"), Some(jwt),
      map["membershipName" := Str(f.membershipName)],
      Obj(map["name" := Str(f.name), "age" := Num(Value(f.age) as real), "phno" := Num(Value(f.phno) as real),
              "email" := Str(f.email), "salary" := Num(DecimalValue(f.salary)), "gender" := Str(f.gender)]))
  }

  /**
   * `addTrainerAction` on a form, the decrypted token `jwt`, the outcome of the POST and the
   * clock reading `now`.
   */
  function Submit(f: Form, jwt: string, outcome: Outcome, isEmail: string -> bool, now: int): (r: Submission<Errors>)
    ensures !Valid(f, isEmail) ==> r.request == None && r.state.errors == Validate(f, isEmail)
    ensures Valid(f, isEmail) ==> r.request == Some(Request(f, jwt))
    ensures Valid(f, isEmail) ==> r.state.errors == Clean.(formErrors := Settle(outcome, 201, Direct, Fallback))
    ensures r.state.success <==> Valid(f, isEmail) && outcome.Response? && outcome.status == 201
    ensures r.state.success <==> r.state.errors == Clean
    ensures r.state.timestamp == Some(now)
  {
    var invalid := Validate(f, isEmail);
    if invalid != Clean then Submission(State(invalid, false, Some(now)), None)
    else
      var formErrors := Settle(outcome, 201, Direct, Fallback);
      Submission(State(Clean.(formErrors := formErrors), formErrors == [], Some(now)), Some(Request(f, jwt)))
  }

  /** Examples of the general rule in `Checks.PositiveDecimal`: "0" and "0.0" are numerals, but not positive ones. */
  lemma SalaryZero(f: Form, isEmail: string -> bool)
    ensures Validate(f.(salary := "0"), isEmail).salary == ["Salary must be positive"]
    ensures Validate(f.(salary := "0.0"), isEmail).salary == ["Salary must be positive"]
  {
    assert IndexOf("0", '.') == 1 && "0"[..1] == "0";
    assert IsDecimal("0") && !HasNonZeroDigit("0");
    assert IndexOf("0.0", '.') == 1 && "0.0"[..1] == "0" && "0.0"[2..] == "0";
    assert IsDecimal("0.0") && !HasNonZeroDigit("0.0");
  }

  /**
   * Examples of the general rule in `Checks.PositiveDecimal`: "1." is refused by the pattern,
   * which wants digits after a point, and "12.5" passes.
   */
  lemma SalaryPoint(f: Form, isEmail: string -> bool)
    ensures Validate(f.(salary := "1."), isEmail).salary == ["Salary must be a valid number"]
    ensures Validate(f.(salary := "12.5"), isEmail).salary == []
  {
    assert IndexOf("1.", '.') == 1 && "1."[2..] == "";
    assert IndexOf("12.5", '.') == 2 && "12.5"[..2] == "12" && "12.5"[3..] == "5";
    assert IsDecimal("12.5") && "12.5"[0] != '0';
  }
}
