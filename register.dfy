/** `registerSchema` and `registerAction`: sign up a new administrator. */
module Register {
  import opened Wrappers
  import opened Text
  import opened JsNumber
  import opened Json
  import opened Http
  import opened Forms
  import opened Checks

  /** The submitted form fields, all strings. */
  datatype Form = Form(name: string, age: string, email: string, phno: string, gender: string)

  /** The `errors` record of `RegisterFormState`; an empty sequence is an absent channel. */
  datatype Errors = Errors(name: seq<string>, age: seq<string>, email: seq<string>, phno: seq<string>,
                           gender: seq<string>, formErrors: seq<string>)

  /** `errors: {}`. */
  const Clean := Errors([], [], [], [], [], [])

  const Fallback := Fallbacks("Registration failed. Please try again.",
                              "Error occurred during registration. Please try again.", Internal)

  /** What the schema demands: an age of digits from 10 to 120 and a phone of exactly ten digits. */
  predicate Valid(f: Form, isEmail: string -> bool)
  {
    f.name != "" && IsDigits(f.age) && 10 <= Value(f.age) <= 120 && isEmail(f.email)
    && |f.phno| == 10 && AllDigits(f.phno) && f.gender in Genders
  }

  /** `registerSchema.safeParse(...)` followed by `flatten().fieldErrors`. */
  function Validate(f: Form, isEmail: string -> bool): (r: Errors)
    ensures r == Clean <==> Valid(f, isEmail)
    ensures r.formErrors == []
    ensures r.name != [] ==> r.name == ["Name is required"]
    ensures f.age == "" ==> r.age == ["Age is required", "Age must be a number"]
    ensures IsDigits(f.age) && !(10 <= Value(f.age) <= 120) ==> r.age == ["Age must be between 10 and 120"]
    ensures r.email != [] ==> r.email == ["Valid Email address is required"]
    ensures JsLength(f.phno) != 10 ==> r.phno != [] && r.phno[0] == "Phone number must be 10 digits"
    ensures r.gender != [] ==> r.gender == ["Select a valid gender"]
  {
    Errors(Required(f.name, "Name is required"),
           WholeBetween(f.age, 10, 120, "Age is required", "Age must be a number", "Age must be between 10 and 120"),
           Email(f.email, isEmail, "Valid Email address is required"),
           ExactDigits(f.phno, 10, "Phone number must be 10 digits", "Phone number must contain only digits"),
           OneOf(f.gender, Genders, "Select a valid gender"),
           [])
  }

  /** The POST: the fields as they were typed, not zod's parsed values, and no token. */
  function Request(f: Form): (q: Request)
    ensures q.verb == Post && q.url == Backend("api/auth/register") && q.bearer == None
    ensures q.params == map[]
    ensures q.body == Obj(Texts(map["name" := f.name, "age" := f.age, "email" := f.email,
                                    "phno" := f.phno, "gender" := f.gender]))
  {
    Http.Request(Post, Backend("api/auth/register"), None, map[],
      Obj(Texts(map["name" := f.name, "age" := f.age, "email" := f.email, "phno" := f.phno, "gender" := f.gender])))
  }

  /** `registerAction` on a form and the outcome of the POST. The result carries no timestamp. */
  function Submit(f: Form, outcome: Outcome, isEmail: string -> bool): (r: Submission<Errors>)
    ensures !Valid(f, isEmail) ==> r.request == None && r.state.errors == Validate(f, isEmail)
    ensures Valid(f, isEmail) ==> r.request == Some(Request(f))
    ensures Valid(f, isEmail) ==> r.state.errors == Clean.(formErrors := Settle(outcome, 201, Direct, Fallback))
    ensures r.state.success <==> Valid(f, isEmail) && outcome.Response? && outcome.status == 201
    ensures r.state.success <==> r.state.errors == Clean
    ensures r.state.timestamp == None
  {
    var invalid := Validate(f, isEmail);
    if invalid != Clean then Submission(State(invalid, false, None), None)
    else
      var formErrors := Settle(outcome, 201, Direct, Fallback);
      Submission(State(Clean.(formErrors := formErrors), formErrors == [], None), Some(Request(f)))
  }
}
