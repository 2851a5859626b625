/**
 * The `auth` slice of the store: the signed-in user's name, email and token. The token is kept
 * only as `encryptJWT` made it; `encrypt` stands for that routine, which is outside the model.
 */
module AuthSlice {

  /** `AuthState`. */
  datatype Session = Session(name: string, email: string, jwt: string)

  /** `initialState`. */
  const Initial := Session("", "", "")

  /** The slice's four actions. */
  datatype Action = SetName(name: string) | SetEmail(email: string) | SetJwt(token: string) | Clear

  /** The reducer: what each action does to the state. */
  function Reduce(s: Session, a: Action, encrypt: string -> string): (r: Session)
    ensures a.SetName? ==> r.name == a.name && r.email == s.email && r.jwt == s.jwt
    ensures a.SetEmail? ==> r.email == a.email && r.name == s.name && r.jwt == s.jwt
    ensures a.SetJwt? ==> r.jwt == encrypt(a.token) && r.name == s.name && r.email == s.email
    ensures a.Clear? ==> r == Initial
  {
    match a
    case SetName(name) => s.(name := name)
    case SetEmail(email) => s.(email := email)
    case SetJwt(token) => s.(jwt := encrypt(token))
    case Clear => Session("", "", "")
  }

  /** A sequence of dispatched actions, oldest first. */
  function Run(s: Session, actions: seq<Action>, encrypt: string -> string): Session
  {
    if actions == [] then s
    else Reduce(Run(s, actions[..|actions| - 1], encrypt), actions[|actions| - 1], encrypt)
  }

  /** Clearing is idempotent and forgets everything, wherever it starts. */
  lemma ClearForgets(s: Session, t: Session, encrypt: string -> string)
    ensures Reduce(Reduce(s, Clear, encrypt), Clear, encrypt) == Reduce(s, Clear, encrypt)
    ensures Reduce(s, Clear, encrypt) == Reduce(t, Clear, encrypt) == Initial
  {
  }

  /** After a `clearAuth`, the state depends only on the actions dispatched since. */
  lemma {:induction false} RunAfterClear(s: Session, t: Session, rest: seq<Action>, encrypt: string -> string)
    ensures Run(s, [Clear] + rest, encrypt) == Run(t, [Clear] + rest, encrypt) == Run(Initial, rest, encrypt)
  {
    if rest == [] {
      assert ([Clear] + rest)[..0] == [];
    } else {
      var init := rest[..|rest| - 1];
      assert ([Clear] + rest)[..|rest|] == [Clear] + init;
      assert ([Clear] + rest)[|rest|] == rest[|rest| - 1];
      RunAfterClear(s, t, init, encrypt);
    }
  }

  /** Only `setEmailSclice` and `clearAuth` change the email: any run of the other two keeps it. */
  lemma {:induction false} EmailKept(s: Session, actions: seq<Action>, encrypt: string -> string)
    requires forall i :: 0 <= i < |actions| ==> actions[i].SetName? || actions[i].SetJwt?
    ensures Run(s, actions, encrypt).email == s.email
  {
    if actions != [] {
      EmailKept(s, actions[..|actions| - 1], encrypt);
    }
  }

  /** The stored token is always the encryption of some token, or the empty initial one. */
  lemma {:induction false} TokenEncrypted(s: Session, actions: seq<Action>, encrypt: string -> string)
    requires s.jwt == ""
    ensures var jwt := Run(s, actions, encrypt).jwt; jwt == "" || exists t :: jwt == encrypt(t)
  {
    if actions != [] {
      TokenEncrypted(s, actions[..|actions| - 1], encrypt);
      var last := actions[|actions| - 1];
      if last.SetJwt? {
        assert Run(s, actions, encrypt).jwt == encrypt(last.token);
      }
    }
  }

  /** The store: one mutable state, changed in place by the dispatched action. */
  class AuthStore {
    var name: string
    var email: string
    var jwt: string

    function State(): Session
      reads this
    {
      Session(name, email, jwt)
    }

    constructor ()
      ensures State() == Initial
    {
      name, email, jwt := "", "", "";
    }

    /** `setNameSclice(payload)`. */
    method SetNameSclice(payload: string)
      modifies this
      ensures State() == Reduce(old(State()), SetName(payload), t => t)
      ensures name == payload && email == old(email) && jwt == old(jwt)
    {
      name := payload;
    }

    /** `setEmailSclice(payload)`. */
    method SetEmailSclice(payload: string)
      modifies this
      ensures State() == Reduce(old(State()), SetEmail(payload), t => t)
      ensures email == payload && name == old(name) && jwt == old(jwt)
    {
      email := payload;
    }

    /** `setJWTSclice(payload)`, with `encrypt` the `encryptJWT` in force. */
    method SetJwtSclice(payload: string, encrypt: string -> string)
      modifies this
      ensures State() == Reduce(old(State()), SetJwt(payload), encrypt)
      ensures jwt == encrypt(payload) && name == old(name) && email == old(email)
    {
      jwt := encrypt(payload);
    }

    /** `clearAuth()`. */
    method ClearAuth()
      modifies this
      ensures State() == Reduce(old(State()), Clear, t => t) && State() == Initial
    {
      name := "";
      email := "";
      jwt := "";
    }
  }
}
