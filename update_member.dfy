/** `updateMemberSchema` and `updateMemberAction`: change a member's details. */
module UpdateMember {
  import opened Wrappers
  import opened Text
  import opened JsNumber
  import opened Json
  import opened Http
  import opened Forms
  import opened Checks

  /**
   * The submitted form fields, all strings. The dialog sends `memberId` and `registerNo` as ""
   * when the member has none.
   */
  datatype Form = Form(name: string, age: string, phno: string, email: string, gender: string,
                       status: string, memberId: string, registerNo: string, originalMemberEmail: string,
                       membershipName: string, trainerId: string)

  /** The `errors` record of `UpdateMemberFormState`; an empty sequence is an absent channel. */
  datatype Errors = Errors(name: seq<string>, age: seq<string>, phno: seq<string>, email: seq<string>,
                           gender: seq<string>, status: seq<string>, memberId: seq<string>,
                           registerNo: seq<string>, originalMemberEmail: seq<string>,
                           membershipName: seq<string>, trainerId: seq<string>, formErrors: seq<string>)

  /** `errors: {}`. */
  const Clean := Errors([], [], [], [], [], [], [], [], [], [], [], [])

  const Fallback := Fallbacks("Failed to update member. Please try again.",
                              "Error occurred during updating member. Please try again.", Internal)

  /** What the schema demands of each field; `memberId` and `registerNo` accept any string. */
  predicate Valid(f: Form, isEmail: string -> bool)
  {
    f.name != "" && IsDigits(f.age) && HasNonZeroDigit(f.age) && IsTenDigits(f.phno)
    && f.email != "" && isEmail(f.email) && f.gender in Genders && f.status in Statuses
    && f.originalMemberEmail != "" && isEmail(f.originalMemberEmail) && f.membershipName != ""
    && IsDigits(f.trainerId)
  }

  /** `updateMemberSchema.safeParse(...)` followed by `flatten().fieldErrors`. */
  function Validate(f: Form, isEmail: string -> bool): (r: Errors)
    ensures r == Clean <==> Valid(f, isEmail)
    ensures r.memberId == [] && r.registerNo == [] && r.formErrors == []
    ensures r.status != [] ==> r.status == ["Status must be ACTIVE or INACTIVE"]
    ensures f.originalMemberEmail != "" && !isEmail(f.originalMemberEmail) ==>
      r.originalMemberEmail == ["Invalid original member email address"]
    ensures r.name != [] ==> r.name == ["Member name is required"]
    ensures IsDigits(f.age) && !HasNonZeroDigit(f.age) ==> r.age == ["Age must be positive"]
  {
    Errors(Required(f.name, "Member name is required"),
           PositiveWhole(f.age, "Age is required", "Age must be a number", "Age must be positive"),
           TenDigits(f.phno, "Phone number is required", "Phone number must be 10 digits"),
           RequiredEmail(f.email, isEmail, "Email is required", "Invalid email address"),
           OneOf(f.gender, Genders, "Gender is required"),
           OneOf(f.status, Statuses, "Status must be ACTIVE or INACTIVE"),
           [], [],
           RequiredEmail(f.originalMemberEmail, isEmail, "Original member email is required",
                         "Invalid original member email address"),
           Required(f.membershipName, "Membership is required"),
           WholeNumber(f.trainerId, "Trainer is required", "Trainer is required"),
           [])
  }

  /**
   * `memberData`, the body of the PUT: the new details, including the new email, and neither the
   * original email, the membership nor the trainer. `memberId` and `registerNo` are left out when
   * empty and are otherwise whatever `Number` makes of them, `null` for a non-numeric one.
   */
  function MemberData(f: Form): (j: Json)
    requires IsDigits(f.age) && IsTenDigits(f.phno)
    ensures j.Obj?
    ensures j.props.Keys == {"name", "age", "phno", "email", "gender", "status"}
      + (if f.memberId != "" then {"memberId"} else {}) + (if f.registerNo != "" then {"registerNo"} else {})
    ensures j.props["name"] == Str(f.name) && j.props["email"] == Str(f.email)
    ensures j.props["gender"] == Str(f.gender) && j.props["status"] == Str(f.status)
    ensures j.props["age"] == Num(Value(f.age) as real)
    ensures j.props["phno"] == Num(Value(f.phno) as real)
    ensures f.memberId != "" ==> j.props["memberId"] == NumberOrOmitted(f.memberId).value
    ensures f.registerNo != "" ==> j.props["registerNo"] == NumberOrOmitted(f.registerNo).value
  {
    var member := map["name" := Str(f.name), "age" := Num(Value(f.age) as real),
                      "phno" := Num(Value(f.phno) as real), "email" := Str(f.email),
                      "gender" := Str(f.gender), "status" := Str(f.status)];
    Obj(With(With(member, "memberId", NumberOrOmitted(f.memberId)),
             "registerNo", NumberOrOmitted(f.registerNo)))
  }

  /**
   * The PUT. The member is identified by its original email, a query parameter, which also
   * carries the membership and the trainer.
   */
  function Request(f: Form, jwt: string): (q: Request)
    requires IsDigits(f.age) && IsTenDigits(f.phno) && IsDigits(f.trainerId)
    ensures q.verb == Put && q.url == Backend("user/updateMember") && q.bearer == Some(jwt)
    ensures q.params == map["memberEmail" := Str(f.originalMemberEmail),
                            "membershipName" := Str(f.membershipName),
                            "trainerId" := Num(Value(f.trainerId) as real)]
    ensures q.body == MemberData(f)
  {
    Http.Request(Put, Backend("user/updateMember"), Some(jwt),
      map["memberEmail" := Str(f.originalMemberEmail), "membershipName" := Str(f.membershipName),
          "trainerId" := Num(Value(f.trainerId) as real)],
      MemberData(f))
  }

  /**
   * `updateMemberAction` on a form, the decrypted token `jwt`, the outcome of the PUT and the
   * clock reading `now`.
   */
  function Submit(f: Form, jwt: string, outcome: Outcome, isEmail: string -> bool, now: int): (r: Submission<Errors>)
    ensures !Valid(f, isEmail) ==> r.request == None && r.state.errors == Validate(f, isEmail)
    ensures Valid(f, isEmail) ==> r.request == Some(Request(f, jwt))
    ensures Valid(f, isEmail) ==> r.state.errors == Clean.(formErrors := Settle(outcome, 200, Direct, Fallback))
    ensures r.state.success <==> Valid(f, isEmail) && outcome.Response? && outcome.status == 200
    ensures r.state.success <==> r.state.errors == Clean
    ensures r.state.timestamp == Some(now)
  {
    var invalid := Validate(f, isEmail);
    if invalid != Clean then Submission(State(invalid, false, Some(now)), None)
    else
      var formErrors := Settle(outcome, 200, Direct, Fallback);
      Submission(State(Clean.(formErrors := formErrors), formErrors == [], Some(now)), Some(Request(f, jwt)))
  }
}
