/** `updateTrainerSchema` and `updateTrainerAction`: change a trainer's details. */
module UpdateTrainer {
  import opened Wrappers
  import opened Text
  import opened JsNumber
  import opened Json
  import opened Http
  import opened Forms
  import opened Checks

  /** The submitted form fields, all strings; `trainerId` and `registerNo` may be "". */
  datatype Form = Form(name: string, age: string, phno: string, email: string, salary: string,
                       gender: string, membershipName: string, originalTrainerEmail: string,
                       status: string, trainerId: string, registerNo: string)

  /** The `errors` record of `UpdateTrainerFormState`; an empty sequence is an absent channel. */
  datatype Errors = Errors(name: seq<string>, age: seq<string>, phno: seq<string>, email: seq<string>,
                           salary: seq<string>, gender: seq<string>, membershipName: seq<string>,
                           originalTrainerEmail: seq<string>, status: seq<string>, formErrors: seq<string>)

  /** `errors: {}`. */
  const Clean := Errors([], [], [], [], [], [], [], [], [], [])

  const Fallback := Fallbacks("Failed to update trainer. Please try again.",
                              "Error occurred during updating trainer. Please try again.", Internal)

  /** What the schema demands of each field: here the salary need only be non-empty. */
  predicate Valid(f: Form, isEmail: string -> bool)
  {
    f.name != "" && IsDigits(f.age) && HasNonZeroDigit(f.age) && IsTenDigits(f.phno)
    && f.email != "" && isEmail(f.email) && f.salary != "" && f.gender in Genders
    && f.membershipName != "" && f.originalTrainerEmail != "" && isEmail(f.originalTrainerEmail)
    && f.status in Statuses
  }

  /** `updateTrainerSchema.safeParse(...)` followed by `flatten().fieldErrors`. */
  function Validate(f: Form, isEmail: string -> bool): (r: Errors)
    ensures r == Clean <==> Valid(f, isEmail)
    ensures r.formErrors == []
    ensures r.salary != [] ==> r.salary == ["Salary is required"]
    ensures r.status != [] ==> r.status == ["Status must be ACTIVE or INACTIVE"]
    ensures f.originalTrainerEmail != "" && !isEmail(f.originalTrainerEmail) ==>
      r.originalTrainerEmail == ["Invalid original trainer email address"]
  {
    Errors(Required(f.name, "Trainer name is required"),
           PositiveWhole(f.age, "Age is required", "Age must be a number", "Age must be positive"),
           TenDigits(f.phno, "Phone number is required", "Phone number must be 10 digits"),
           RequiredEmail(f.email, isEmail, "Email is required", "Invalid email address"),
           Required(f.salary, "Salary is required"),
           OneOf(f.gender, Genders, "Gender is required"),
           Required(f.membershipName, "Membership is required"),
           RequiredEmail(f.originalTrainerEmail, isEmail, "Original trainer email is required",
                         "Invalid original trainer email address"),
           OneOf(f.status, Statuses, "Status must be ACTIVE or INACTIVE"),
           [])
  }

  /**
   * `trainerData`, the body of the PUT: the new details, including the new email, and neither the
   * original email nor the membership. The salary goes as the string it was typed as; `trainerId`
   * and `registerNo` are left out when empty and are otherwise whatever `Number` makes of them.
   */
  function TrainerData(f: Form): (j: Json)
    requires IsDigits(f.age) && IsTenDigits(f.phno)
    ensures j.Obj?
    ensures j.props.Keys == {"name", "age", "phno", "email", "salary", "gender", "status"}
      + (if f.trainerId != "" then {"trainerId"} else {}) + (if f.registerNo != "" then {"registerNo"} else {})
    ensures j.props["name"] == Str(f.name) && j.props["email"] == Str(f.email)
    ensures j.props["gender"] == Str(f.gender) && j.props["status"] == Str(f.status)
    ensures j.props["age"] == Num(Value(f.age) as real)
    ensures j.props["phno"] == Num(Value(f.phno) as real)
    ensures j.props["salary"] == Str(f.salary)
    ensures f.trainerId != "" ==> j.props["trainerId"] == NumberOrOmitted(f.trainerId).value
    ensures f.registerNo != "" ==> j.props["registerNo"] == NumberOrOmitted(f.registerNo).value
  {
    var trainer := map["name" := Str(f.name), "age" := Num(Value(f.age) as real),
                       "phno" := Num(Value(f.phno) as real), "email" := Str(f.email),
                       "salary" := Str(f.salary), "gender" := Str(f.gender), "status" := Str(f.status)];
    Obj(With(With(trainer, "trainerId", NumberOrOmitted(f.trainerId)),
             "registerNo", NumberOrOmitted(f.registerNo)))
  }

  /**
   * The PUT, sent to a hard-coded address rather than the configured backend. The trainer is
   * identified by its original email, a query parameter, which also carries the membership.
   */
  function Request(f: Form, jwt: string): (q: Request)
    requires IsDigits(f.age) && IsTenDigits(f.phno)
    ensures q.verb == Put && q.url == Absolute("http://localhost:8080/user/updateTrainer")
    ensures q.bearer == Some(jwt)
    ensures q.params == map["trainerEmail" := Str(f.originalTrainerEmail), "membershipName" := Str(f.membershipName)]
    ensures q.body == TrainerData(f)
  {
    Http.Request(Put, Absolute("http://localhost:8080/user/updateTrainer"), Some(jwt),
      map["trainerEmail" := Str(f.originalTrainerEmail), "membershipName" := Str(f.membershipName)],
      TrainerData(f))
  }

  /**
   * `updateTrainerAction` on a form, the decrypted token `jwt`, the outcome of the PUT and the
   * clock reading `now`.
   */
  function Submit(f: Form, jwt: string, outcome: Outcome, isEmail: string -> bool, now: int): (r: Submission<Errors>)
    ensures !Valid(f, isEmail) ==> r.request == None && r.state.errors == Validate(f, isEmail)
    ensures Valid(f, isEmail) ==> r.request == Some(Request(f, jwt))
    ensures Valid(f, isEmail) ==> r.state.errors == Clean.(formErrors := Settle(outcome, 200, Direct, Fallback))
    ensures r.state.success <==> Valid(f, isEmail) && outcome.Response? && outcome.status == 200
    ensures r.state.success <==> r.state.errors == Clean
    ensures r.state.timestamp == Some(now)
  {
    var invalid := Validate(f, isEmail);
    if invalid != Clean then Submission(State(invalid, false, Some(now)), None)
    else
      var formErrors := Settle(outcome, 200, Direct, Fallback);
      Submission(State(Clean.(formErrors := formErrors), formErrors == [], Some(now)), Some(Request(f, jwt)))
  }

  /**
   * An example of the general rule in `Checks.Required`: unlike the add form, a salary of "0" or
   * of words is accepted, since it need only be present.
   */
  lemma SalaryUnchecked(f: Form, isEmail: string -> bool)
    ensures Validate(f.(salary := "0"), isEmail).salary == []
    ensures Validate(f.(salary := "abc"), isEmail).salary == []
  {
  }
}
