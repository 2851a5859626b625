/** `addMembershipSchema` and `addMembershipAction`: create a membership plan. */
module AddMembership {
  import opened Wrappers
  import opened Text
  import opened JsNumber
  import opened Json
  import opened Http
  import opened Forms
  import opened Checks

  /** The submitted form fields, all strings. */
  datatype Form = Form(name: string, duration: string, price: string)

  /** The `errors` record of `AddMembershipFormState`; an empty sequence is an absent channel. */
  datatype Errors = Errors(name: seq<string>, duration: seq<string>, price: seq<string>, formErrors: seq<string>)

  /** `errors: {}`. */
  const Clean := Errors([], [], [], [])

  const Fallback := Fallbacks("Failed to add membership. Please try again.",
                              "Error occurred during adding membership. Please try again.", Internal)

  /** What the schema demands: a name, a duration and a positive decimal price. */
  predicate Valid(f: Form)
  {
    f.name != "" && f.duration != "" && IsDecimal(f.price) && HasNonZeroDigit(f.price)
  }

  /** `addMembershipSchema.safeParse(...)` followed by `flatten().fieldErrors`. */
  function Validate(f: Form): (r: Errors)
    ensures r == Clean <==> Valid(f)
    ensures r.formErrors == []
    ensures r.name != [] ==> r.name == ["Membership name is required"]
    ensures r.duration != [] ==> r.duration == ["Duration is required"]
    ensures f.price == "" ==> r.price == ["Price is required", "Price must be a valid number"]
    ensures f.price != "" && !IsDecimal(f.price) ==> r.price == ["Price must be a valid number"]
    ensures IsDecimal(f.price) && !HasNonZeroDigit(f.price) ==> r.price == ["Price must be positive"]
  {
    Errors(Required(f.name, "Membership name is required"),
           Required(f.duration, "Duration is required"),
           PositiveDecimal(f.price, "Price is required", "Price must be a valid number", "Price must be positive"),
           [])
  }

  /**
   * The POST built from the fields: the name and duration as typed and the price as the number
   * `Number` makes of it (`Http.WireDecimal`). There are no query parameters.
   */
  function Request(f: Form, jwt: string): (q: Request)
    requires IsDecimal(f.price)
    ensures q.verb == Post && q.url == Backend("user/addMembership") && q.bearer == Some(jwt)
    ensures q.params == map[]
    ensures q.body == Obj(map["name" := Str(f.name), "duration" := Str(f.duration),
                              "price" := Num(DecimalValue(f.price))])
  {
    Http.Request(Post, Backend("user/addMembership"), Some(jwt), map[],
      Obj(map["name" := Str(f.name), "duration" := Str(f.duration), "price" := Num(DecimalValue(f.price))]))
  }

  /**
   * `addMembershipAction` on a form, the decrypted token `jwt`, the outcome of the POST and the
   * clock reading `now`.
   */
  function Submit(f: Form, jwt: string, outcome: Outcome, now: int): (r: Submission<Errors>)
    ensures !Valid(f) ==> r.request == None && r.state.errors == Validate(f)
    ensures Valid(f) ==> r.request == Some(Request(f, jwt))
    ensures Valid(f) ==> r.state.errors == Clean.(formErrors := Settle(outcome, 201, Direct, Fallback))
    ensures r.state.success <==> Valid(f) && outcome.Response? && outcome.status == 201
    ensures r.state.success <==> r.state.errors == Clean
    ensures r.state.timestamp == Some(now)
  {
    var invalid := Validate(f);
    if invalid != Clean then Submission(State(invalid, false, Some(now)), None)
    else
      var formErrors := Settle(outcome, 201, Direct, Fallback);
      Submission(State(Clean.(formErrors := formErrors), formErrors == [], Some(now)), Some(Request(f, jwt)))
  }
}
