/**
 * The rules inside the login page: the OTP field's sanitiser, the route chosen from the
 * login message's role prefix, the session email recorded by an OTP send, and `handleLogin`.
 */
module LoginPage {
  import opened Wrappers
  import opened Text
  import opened Http
  import opened Forms
  import opened AuthSlice
  import SendOtp
  import Login

  /** `replace(/\D/g, '')`: the ASCII digits of `v`, in order. */
  function Digits(v: string): (r: string)
    ensures AllDigits(r) && |r| <= |v|
    ensures AllDigits(v) ==> r == v
  {
    if v == [] then []
    else if IsDigit(v[|v| - 1]) then Digits(v[..|v| - 1]) + [v[|v| - 1]]
    else Digits(v[..|v| - 1])
  }

  /** Removing the non-digits of a concatenation removes them from each part. */
  lemma {:induction false} DigitsAppend(a: string, b: string)
    ensures Digits(a + b) == Digits(a) + Digits(b)
  {
    if b == [] {
      assert a + b == a;
    } else {
      var init := b[..|b| - 1];
      assert (a + b)[..|a + b| - 1] == a + init;
      assert (a + b)[|a + b| - 1] == b[|b| - 1];
      DigitsAppend(a, init);
    }
  }

  /** The OTP input's `onChange`: keep the digits, then at most the first six of them. */
  function SanitizeOtp(v: string): (r: string)
    ensures AllDigits(r)
    ensures |r| == if |Digits(v)| < 6 then |Digits(v)| else 6
    ensures r == Digits(v)[..|r|]
    ensures AllDigits(v) && |v| <= 6 ==> r == v
  {
    var d := Digits(v);
    if |d| <= 6 then d else d[..6]
  }

  /** Sanitising twice changes nothing more. */
  lemma SanitizeIdempotent(v: string)
    ensures SanitizeOtp(SanitizeOtp(v)) == SanitizeOtp(v)
  {
  }

  /** Typed characters that are not digits never shift the digits kept. */
  lemma SanitizeIgnores(a: string, junk: string, b: string)
    requires forall i :: 0 <= i < |junk| ==> !IsDigit(junk[i])
    ensures SanitizeOtp(a + junk + b) == SanitizeOtp(a + b)
  {
    DigitsOfNone(junk);
    DigitsAppend(a, junk);
    DigitsAppend(a + junk, b);
    DigitsAppend(a, b);
    assert Digits(a) + [] == Digits(a);
    SameDigits(a + junk + b, a + b);
  }

  /** The OTP kept depends only on the digits typed. */
  lemma SameDigits(x: string, y: string)
    requires Digits(x) == Digits(y)
    ensures SanitizeOtp(x) == SanitizeOtp(y)
  {
  }

  lemma {:induction false} DigitsOfNone(s: string)
    requires forall i :: 0 <= i < |s| ==> !IsDigit(s[i])
    ensures Digits(s) == []
  {
    if s != [] {
      DigitsOfNone(s[..|s| - 1]);
    }
  }

  const AdminRoute := "/admin"
  const TrainerRoute := "/trainer"
  const MemberRoute := "/member"

  /** The route for a login message: the first of ADMIN, TRAINER, MEMBER it starts with. */
  function RouteFor(msg: string): (r: Option<string>)
    ensures r == Some(AdminRoute) <==> StartsWith(msg, "ADMIN")
    ensures r == Some(TrainerRoute) <==> StartsWith(msg, "TRAINER")
    ensures r == Some(MemberRoute) <==> StartsWith(msg, "MEMBER")
    ensures r.None? <==> !StartsWith(msg, "ADMIN") && !StartsWith(msg, "TRAINER") && !StartsWith(msg, "MEMBER")
  {
    PrefixesExclusive(msg);
    if StartsWith(msg, "ADMIN") then Some(AdminRoute)
    else if StartsWith(msg, "TRAINER") then Some(TrainerRoute)
    else if StartsWith(msg, "MEMBER") then Some(MemberRoute)
    else None
  }

  /** No message starts with two of the role names, so the order of the tests does not matter. */
  lemma PrefixesExclusive(msg: string)
    ensures !(StartsWith(msg, "ADMIN") && StartsWith(msg, "TRAINER"))
    ensures !(StartsWith(msg, "ADMIN") && StartsWith(msg, "MEMBER"))
    ensures !(StartsWith(msg, "TRAINER") && StartsWith(msg, "MEMBER"))
  {
    if StartsWith(msg, "ADMIN") { assert msg[0] == "ADMIN"[0]; }
    if StartsWith(msg, "TRAINER") { assert msg[0] == "TRAINER"[0]; }
  }

  /** A message that merely contains a role name further on chooses no route. */
  lemma RoleMustLead()
    ensures RouteFor("Welcome ADMIN") == None
  {
    assert "Welcome ADMIN"[..5] != "ADMIN" by { assert "Welcome ADMIN"[0] == 'W'; }
    assert "Welcome ADMIN"[..7] != "TRAINER" by { assert "Welcome ADMIN"[0] == 'W'; }
    assert "Welcome ADMIN"[..6] != "MEMBER" by { assert "Welcome ADMIN"[0] == 'W'; }
  }

  /** One press of the send button: the address in the field, and whether the send reported success. */
  datatype Send = Send(email: string, success: bool)


  /**
   * The session email after a series of sends, as the page computes it: the email effect runs
   * only when `formState.success` changes value, so a success right after a success records nothing.
   */
  function SessionEmailAsWritten(session: string, wasSent: bool, sends: seq<Send>): string
    decreases |sends|
  {
    if sends == [] then session
    else
      var s := sends[0];
      SessionEmailAsWritten(if s.success && !wasSent then s.email else session, s.success, sends[1..])
  }

  /** The session email after a series of sends when every successful send records its address. */
  function SessionEmail(session: string, sends: seq<Send>): string
    decreases |sends|
  {
    if sends == [] then session
    else SessionEmail(if sends[0].success then sends[0].email else session, sends[1..])
  }

  /** Two successful sends to different addresses leave the first address in the session. */
  lemma StaleSessionEmail()
    ensures var sends := [Send("a@gym.com", true), Send("b@gym.com", true)];
      SessionEmailAsWritten("", false, sends) == "a@gym.com" && SessionEmail("", sends) == "b@gym.com"
  {
    var sends := [Send("a@gym.com", true), Send("b@gym.com", true)];
    assert sends[1..] == [Send("b@gym.com", true)];
    assert sends[1..][1..] == [];
  }

  /** The send at `i` is the last one that succeeded. */
  predicate LastSuccess(sends: seq<Send>, i: int)
  {
    0 <= i < |sends| && sends[i].success && forall j :: i < j < |sends| ==> !sends[j].success
  }

  /** With the corrected rule the session holds the address of the last successful send. */
  lemma {:induction false} SessionEmailIsLastSent(session: string, sends: seq<Send>, i: int)
    requires LastSuccess(sends, i)
    ensures SessionEmail(session, sends) == sends[i].email
    decreases i
  {
    if i == 0 {
      NoSuccessKeeps(sends[0].email, sends[1..]);
    } else {
      assert LastSuccess(sends[1..], i - 1) by {
        forall j | i - 1 < j < |sends| - 1 ensures !sends[1..][j].success {
          assert sends[1..][j] == sends[j + 1];
        }
      }
      SessionEmailIsLastSent(if sends[0].success then sends[0].email else session, sends[1..], i - 1);
    }
  }

  /** Sends that all failed leave the session email as it was. */
  lemma {:induction false} NoSuccessKeeps(session: string, sends: seq<Send>)
    requires forall j :: 0 <= j < |sends| ==> !sends[j].success
    ensures SessionEmail(session, sends) == session
    decreases |sends|
  {
    if sends != [] {
      assert forall j :: 0 <= j < |sends| - 1 ==> sends[1..][j] == sends[j + 1];
      NoSuccessKeeps(session, sends[1..]);
    }
  }

  /** The log-in screen's state, with the shared authentication store. */
  class Page {
    var email: string
    var otp: string
    /** `formState` of the OTP send. */
    var sent: bool
    var sendErrors: SendOtp.Errors
    /** `loginVisibleErrors`, `loginSuccess` and `redirectPath`. */
    var loginErrors: Login.Errors
    var loginSuccess: Option<string>
    var redirectPath: Option<string>
    const session: AuthStore

    constructor (store: AuthStore)
      ensures session == store && email == "" && otp == "" && !sent && sendErrors == SendOtp.Clean
      ensures loginErrors == Login.Clean && loginSuccess == None && redirectPath == None
    {
      session := store;
      email, otp, sent, sendErrors := "", "", false, SendOtp.Clean;
      loginErrors, loginSuccess, redirectPath := Login.Clean, None, None;
    }

    /** The email field's `onChange`. */
    method TypeEmail(v: string)
      modifies this
      ensures email == v && otp == old(otp) && sent == old(sent) && sendErrors == old(sendErrors)
      ensures loginErrors == old(loginErrors) && loginSuccess == old(loginSuccess) && redirectPath == old(redirectPath)
    {
      email := v;
    }

    /** The OTP field's `onChange`. */
    method TypeOtp(v: string)
      modifies this
      ensures otp == SanitizeOtp(v) && email == old(email) && sent == old(sent) && sendErrors == old(sendErrors)
      ensures loginErrors == old(loginErrors) && loginSuccess == old(loginSuccess) && redirectPath == old(redirectPath)
    {
      otp := SanitizeOtp(v);
    }

    /**
     * `handleSendOtp` with the outcome of the GET, followed by the email effect. The effect is keyed
     * on `formState.success`, so it records the address only when a send succeeds after one that
     * did not: the session email follows `SessionEmailAsWritten`, not the corrected `SessionEmail`.
     */
    method HandleSendOtp(outcome: Outcome, isEmail: string -> bool) returns (r: Submission<SendOtp.Errors>)
      modifies this, session
      ensures r == SendOtp.Submit(old(email), outcome, isEmail)
      ensures sent == r.state.success && sendErrors == r.state.errors
      ensures session.State() == if sent && !old(sent) then Reduce(old(session.State()), SetEmail(email), t => t)
                                 else old(session.State())
      ensures session.State().email
        == SessionEmailAsWritten(old(session.State().email), old(sent), [Send(old(email), sent)])
      ensures email == old(email) && otp == old(otp)
      ensures loginErrors == old(loginErrors) && loginSuccess == old(loginSuccess) && redirectPath == old(redirectPath)
    {
      var wasSent := sent;
      r := SendOtp.Submit(email, outcome, isEmail);
      sent, sendErrors := r.state.success, r.state.errors;
      if sent && !wasSent {
        session.SetEmailSclice(email);
      }
      assert [Send(email, sent)][1..] == [];
    }

    /**
     * `handleLogin` with the outcome of the POST: errors are shown; otherwise a message clears
     * the fields, stores the token when there is one, and picks the route its prefix names.
     */
    method HandleLogin(outcome: Outcome, isEmail: string -> bool, encrypt: string -> string) returns (r: Login.Attempt)
      modifies this, session
      ensures r == Login.Submit(old(email), old(otp), outcome, isEmail)
      ensures sent == old(sent) && sendErrors == old(sendErrors)
      ensures r.state.errors != Login.Clean ==>
        loginErrors == r.state.errors && loginSuccess == None && email == old(email) && otp == old(otp)
        && redirectPath == old(redirectPath) && session.State() == old(session.State())
      ensures r.state.errors == Login.Clean && !TruthyText(r.state.values.message) ==>
        loginErrors == Login.Clean && loginSuccess == None && email == old(email) && otp == old(otp)
        && redirectPath == old(redirectPath) && session.State() == old(session.State())
      ensures r.state.errors == Login.Clean && TruthyText(r.state.values.message) ==>
        loginErrors == Login.Clean && loginSuccess == r.state.values.message && email == "" && otp == ""
        && redirectPath == (if RouteFor(r.state.values.message.value).Some?
                            then RouteFor(r.state.values.message.value) else old(redirectPath))
        && session.State() == (if TruthyText(r.state.values.jwt)
                               then Reduce(old(session.State()), SetJwt(r.state.values.jwt.value), encrypt)
                               else old(session.State()))
    {
      loginSuccess := None;
      loginErrors := Login.Clean;
      r := Login.Submit(email, otp, outcome, isEmail);
      if r.state.errors != Login.Clean {
        loginErrors := r.state.errors;
      } else if TruthyText(r.state.values.message) {
        var msg := r.state.values.message.value;
        loginSuccess := Some(msg);
        email := "";
        otp := "";
        if TruthyText(r.state.values.jwt) {
          session.SetJwtSclice(r.state.values.jwt.value, encrypt);
        }
        var route := RouteFor(msg);
        if route.Some? {
          redirectPath := route;
        }
      }
    }
  }

  /** A failed login never stores a token nor picks a route: its values carry neither. */
  lemma FailedLoginStoresNothing(email: string, otp: string, outcome: Outcome, isEmail: string -> bool)
    requires Login.Submit(email, otp, outcome, isEmail).state.errors != Login.Clean
    ensures Login.Submit(email, otp, outcome, isEmail).state.values.jwt == None
    ensures Login.Submit(email, otp, outcome, isEmail).state.values.message == None
  {
  }
}
