/** `loginSchema` and `loginAction`: sign in with an email address and a one-time password. */
module Login {
  import opened Wrappers
  import opened Text
  import opened Json
  import opened Http
  import opened Forms
  import opened Checks

  /** The `errors` record of `LoginFormState`; an empty sequence is an absent channel. */
  datatype Errors = Errors(email: seq<string>, otp: seq<string>, formErrors: seq<string>)

  /** `errors: {}`. */
  const Clean := Errors([], [], [])

  /** The `values` record of `LoginFormState`. */
  datatype Values = Values(email: Option<string>, otp: Option<string>, jwt: Option<string>, message: Option<string>)

  /** `LoginFormState`: there is no success flag; a login succeeded when `errors` is empty. */
  datatype LoginState = LoginState(errors: Errors, values: Values)

  datatype Attempt = Attempt(state: LoginState, request: Option<Request>)

  const Fallback := Fallbacks("Login failed. Please try again.",
                              "Error occurred during login. Please try again.", Internal)

  /**
   * What the schema demands: a well-formed email and an OTP of any characters at least six UTF-16
   * code units long, so three characters above U+FFFF are enough.
   */
  predicate Valid(email: string, otp: string, isEmail: string -> bool)
  {
    isEmail(email) && JsLength(otp) >= 6
  }

  /** `loginSchema.safeParse(...)` followed by `flatten().fieldErrors`. */
  function Validate(email: string, otp: string, isEmail: string -> bool): (r: Errors)
    ensures r == Clean <==> Valid(email, otp, isEmail)
    ensures r.formErrors == []
    ensures r.email != [] ==> r.email == ["Valid Email address is required"]
    ensures r.otp != [] ==> r.otp == ["OTP must be of 6 digits"]
  {
    Errors(Email(email, isEmail, "Valid Email address is required"), Min(otp, 6, "OTP must be of 6 digits"), [])
  }

  /** Three characters above U+FFFF are six UTF-16 code units, enough for `.min(6)`. */
  lemma AstralOtp(email: string, isEmail: string -> bool)
    ensures Valid(email, "\U{1F600}\U{1F600}\U{1F600}", isEmail) <==> isEmail(email)
  {
    var s := "\U{1F600}\U{1F600}\U{1F600}";
    assert JsLength(s[..1]) == 2 by { assert s[..1][..0] == ""; }
    assert JsLength(s[..2]) == 4 by { assert s[..2][..1] == s[..1]; }
    assert JsLength(s) == 6 by { assert s[..|s| - 1] == s[..2]; }
  }

  /** The POST of the credentials, without a token. */
  function Request(email: string, otp: string): (q: Request)
    ensures q.verb == Post && q.url == Backend("api/auth/login") && q.bearer == None && q.params == map[]
    ensures q.body == Obj(map["email" := Str(email), "otp" := Str(otp)])
  {
    Http.Request(Post, Backend("api/auth/login"), None, map[], Obj(map["email" := Str(email), "otp" := Str(otp)]))
  }

  /** `values: { email, otp }`. */
  function Echo(email: string, otp: string): (v: Values)
    ensures v.email == Some(email) && v.otp == Some(otp) && v.jwt.None? && v.message.None?
  {
    Values(Some(email), Some(otp), None, None)
  }

  /** `response.status === 200 && response.data`. */
  predicate LoggedIn(outcome: Outcome)
  {
    outcome.Response? && outcome.status == 200 && outcome.data.Data?
  }

  /** `loginAction` on the two fields and the outcome of the POST. */
  function Submit(email: string, otp: string, outcome: Outcome, isEmail: string -> bool): (r: Attempt)
    ensures !Valid(email, otp, isEmail) ==>
      r.request == None && r.state == LoginState(Validate(email, otp, isEmail), Echo(email, otp))
    ensures Valid(email, otp, isEmail) ==> r.request == Some(Request(email, otp))
    ensures Valid(email, otp, isEmail) && LoggedIn(outcome) ==>
      r.state == LoginState(Clean, Values(None, None, outcome.data.body, outcome.data.message))
    ensures Valid(email, otp, isEmail) && !LoggedIn(outcome) ==>
      r.state == LoginState(Clean.(formErrors := [Reason(outcome, Guarded, Fallback)]), Echo(email, otp))
    ensures r.state.errors == Clean <==> Valid(email, otp, isEmail) && LoggedIn(outcome)
    ensures r.state.errors != Clean ==> r.state.values == Echo(email, otp)
  {
    var invalid := Validate(email, otp, isEmail);
    if invalid != Clean then Attempt(LoginState(invalid, Echo(email, otp)), None)
    else if LoggedIn(outcome) then
      Attempt(LoginState(Clean, Values(None, None, outcome.data.body, outcome.data.message)), Some(Request(email, otp)))
    else
      Attempt(LoginState(Clean.(formErrors := [Reason(outcome, Guarded, Fallback)]), Echo(email, otp)),
              Some(Request(email, otp)))
  }

  /** A status of 200 with an empty body is still a failed login, reported with the fallback. */
  lemma EmptyBodyFails(email: string, otp: string, isEmail: string -> bool)
    requires Valid(email, otp, isEmail)
    ensures Submit(email, otp, Response(200, NoData), isEmail).state.errors.formErrors == [Fallback.rejected]
  {
  }
}
