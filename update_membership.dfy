/** `updateMembershipSchema` and `updateMembershipAction`: change a membership plan. */
module UpdateMembership {
  import opened Wrappers
  import opened Text
  import opened JsNumber
  import opened Json
  import opened Http
  import opened Forms
  import opened Checks
  import opened NumberText

  /** The submitted form fields, all strings. */
  datatype Form = Form(id: string, name: string, duration: string, price: string, status: string)

  /** The `errors` record of `UpdateMembershipFormState`; an empty sequence is an absent channel. */
  datatype Errors = Errors(id: seq<string>, name: seq<string>, duration: seq<string>, price: seq<string>,
                           status: seq<string>, formErrors: seq<string>)

  /** `errors: {}`. */
  const Clean := Errors([], [], [], [], [], [])

  const Fallback := Fallbacks("Failed to update membership. Please try again.",
                              "Error occurred during updating membership. Please try again.", Internal)

  /**
   * What the schema demands: an id that `Number` makes positive (with no check on its text), a
   * name, a duration, a positive decimal price and a known status.
   */
  predicate Valid(f: Form)
  {
    IsPositive(ToNumber(f.id)) && f.name != "" && f.duration != "" && IsDecimal(f.price)
    && HasNonZeroDigit(f.price) && f.status in Statuses
  }

  /** `updateMembershipSchema.safeParse(...)` followed by `flatten().fieldErrors`. */
  function Validate(f: Form): (r: Errors)
    ensures r == Clean <==> Valid(f)
    ensures r.formErrors == []
    ensures r.id != [] ==> r.id == ["Membership ID must be positive"]
    ensures r.status != [] ==> r.status == ["Status must be ACTIVE or INACTIVE"]
    ensures IsDecimal(f.price) && !HasNonZeroDigit(f.price) ==> r.price == ["Price must be positive"]
  {
    Errors(PositiveNumber(f.id, "Membership ID must be positive"),
           Required(f.name, "Membership name is required"),
           Required(f.duration, "Duration is required"),
           PositiveDecimal(f.price, "Price is required", "Price must be a valid number", "Price must be positive"),
           OneOf(f.status, Statuses, "Status must be ACTIVE or INACTIVE"),
           [])
  }

  /**
   * The PUT built from the parsed fields: the id as the number `Number` made of it (`null` when it
   * is infinite), and the price converted to a number and back to text, so it is sent in its
   * canonical spelling. There are no query parameters.
   */
  function Request(f: Form, jwt: string): (q: Request)
    requires IsDecimal(f.price)
    ensures q.verb == Put && q.url == Backend("user/updateMembership") && q.bearer == Some(jwt)
    ensures q.params == map[]
    ensures q.body.Obj? && q.body.props.Keys == {"id", "name", "duration", "price", "status"}
    ensures q.body.props["id"] == Wire(ToNumber(f.id))
    ensures q.body.props["name"] == Str(f.name) && q.body.props["duration"] == Str(f.duration)
    ensures q.body.props["status"] == Str(f.status)
    ensures q.body.props["price"] == Str(DecimalText(f.price))
  {
    Http.Request(Put, Backend("user/updateMembership"), Some(jwt), map[],
      Obj(map["id" := Wire(ToNumber(f.id)), "name" := Str(f.name), "duration" := Str(f.duration),
              "price" := Str(DecimalText(f.price)), "status" := Str(f.status)]))
  }

  /**
   * `updateMembershipAction` on a form, the decrypted token `jwt`, the outcome of the PUT and the
   * clock reading `now`.
   */
  function Submit(f: Form, jwt: string, outcome: Outcome, now: int): (r: Submission<Errors>)
    ensures !Valid(f) ==> r.request == None && r.state.errors == Validate(f)
    ensures Valid(f) ==> r.request == Some(Request(f, jwt))
    ensures Valid(f) ==> r.state.errors == Clean.(formErrors := Settle(outcome, 200, Direct, Fallback))
    ensures r.state.success <==> Valid(f) && outcome.Response? && outcome.status == 200
    ensures r.state.success <==> r.state.errors == Clean
    ensures r.state.timestamp == Some(now)
  {
    var invalid := Validate(f);
    if invalid != Clean then Submission(State(invalid, false, Some(now)), None)
    else
      var formErrors := Settle(outcome, 200, Direct, Fallback);
      Submission(State(Clean.(formErrors := formErrors), formErrors == [], Some(now)), Some(Request(f, jwt)))
  }

  /** The price sent denotes the number the schema parsed. */
  lemma PriceRoundTrip(f: Form, jwt: string)
    requires Valid(f)
    ensures var price := Request(f, jwt).body.props["price"];
      price.Str? && ToNumber(price.s) == ToNumber(f.price)
  {
    DecimalTextRoundTrip(f.price);
  }

  /**
   * An example of the general rules in `Checks.PositiveNumber` and `Http.Wire`: "Infinity" is a
   * positive id to the schema, and is sent as `null`.
   */
  lemma InfiniteId(jwt: string)
    ensures var f := Form("Infinity", "Gold", "12", "10", "ACTIVE");
      Valid(f) && Request(f, jwt).body.props["id"] == Null
  {
    var f := Form("Infinity", "Gold", "12", "10", "ACTIVE");
    assert ToNumber(f.id) == Infinity by {
      assert TrimStart(f.id) == f.id && TrimEnd(f.id) == f.id;
    }
    assert IsDecimal(f.price) && HasNonZeroDigit(f.price) by {
      assert IndexOf(f.price, '.') == 2;
      assert f.price[..2] == "10" && IsDigit(f.price[0]) && f.price[0] != '0';
    }
  }
}
