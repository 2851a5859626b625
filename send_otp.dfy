/** `sendOtpAction`: ask the server to mail a one-time password. */
module SendOtp {
  import opened Wrappers
  import opened Json
  import opened Http
  import opened Forms

  /** The `errors` record of `SendOtpFormState`; an empty sequence is an absent channel. */
  datatype Errors = Errors(email: seq<string>, formErrors: seq<string>)

  /** `errors: {}`. */
  const Clean := Errors([], [])

  /** The messages differ from the other actions', down to their capitals. */
  const Fallback := Fallbacks("Failed to send OTP. Please try again.",
                              "Error While Sending the OTP, Please Try Again",
                              "Some Internal Error Occurred, Please Try Again Later")

  /**
   * The message for an empty address: the schema's first form error when `z.email` refuses "",
   * and the fixed text otherwise.
   */
  function EmptyEmailMessage(isEmail: string -> bool): (m: string)
    ensures !isEmail("") ==> m == "Email Is Required To Send OTP"
    ensures isEmail("") ==> m == "Email is required to send OTP"
    ensures m != ""
  {
    if isEmail("") then "Email is required to send OTP" else "Email Is Required To Send OTP"
  }

  /** The GET to the hard-coded address, the email as its one parameter, without a token. */
  function Request(email: string): (q: Request)
    ensures q.verb == Get && q.url == Absolute("http://localhost:8080/api/auth/send-otp-email")
    ensures q.bearer == None && q.params == map["email" := Str(email)] && q.body == Undefined
  {
    Http.Request(Get, Absolute("http://localhost:8080/api/auth/send-otp-email"), None,
                 map["email" := Str(email)], Undefined)
  }

  /**
   * `sendOtpAction(prevState, email)` with the outcome of the GET. Only the empty address is
   * stopped; a malformed one is still sent, whatever the schema said about it.
   */
  function Submit(email: string, outcome: Outcome, isEmail: string -> bool): (r: Submission<Errors>)
    ensures email == "" ==> r.request == None && r.state.errors == Clean.(email := [EmptyEmailMessage(isEmail)])
    ensures email != "" ==>
      r.request == Some(Request(email))
      && r.state.errors == Clean.(formErrors := Settle(outcome, 200, Fixed, Fallback))
    ensures r.state.success <==> email != "" && outcome.Response? && outcome.status == 200
    ensures r.state.success <==> r.state.errors == Clean
    ensures r.state.timestamp == None
  {
    if email == "" then Submission(State(Clean.(email := [EmptyEmailMessage(isEmail)]), false, None), None)
    else
      var formErrors := Settle(outcome, 200, Fixed, Fallback);
      Submission(State(Clean.(formErrors := formErrors), formErrors == [], None), Some(Request(email)))
  }

  /**
   * A 2xx status other than 200 always shows the fixed text, even when the server sent a message;
   * a 4xx or 5xx status is a `ClientError`, which shows the server's message (`Forms.Reason`).
   */
  lemma StatusIgnoresServer(email: string, status: Accepted, data: Data, isEmail: string -> bool)
    requires email != "" && status != 200
    ensures Submit(email, Response(status, data), isEmail).state.errors.formErrors == [Fallback.rejected]
  {
  }
}
