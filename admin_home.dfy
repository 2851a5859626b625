/**
 * The administrator's home page: loading the signed-in administrator, and what a self-update
 * does to the page and to the session. The store's token is the encrypted one; `decrypt` stands
 * for `decryptJWT`, which gives "" for a token it cannot read.
 */
module AdminHome {
  import opened Wrappers
  import opened Http
  import opened Forms
  import opened AuthSlice
  import UpdateAdmin

  type Admin = UpdateAdmin.Admin

  /** `keyof Admin`: the field an input of the edit form writes. */
  datatype Field = Id | Name | Email | Phno | Age | Gender | Status

  /**
   * `{ ...prev, [field]: value }`: the field named becomes the typed text, so an age becomes text
   * even when it came from the server as a number, and every other field is kept.
   */
  function Assign(a: Admin, field: Field, value: string): (b: Admin)
    ensures b.id == (if field == Id then Some(value) else a.id)
    ensures b.name == (if field == Name then value else a.name)
    ensures b.email == (if field == Email then value else a.email)
    ensures b.phno == (if field == Phno then value else a.phno)
    ensures b.age == (if field == Age then UpdateAdmin.AgeText(value) else a.age)
    ensures b.gender == (if field == Gender then value else a.gender)
    ensures b.status == (if field == Status then Some(value) else a.status)
  {
    match field
    case Id => a.(id := Some(value))
    case Name => a.(name := value)
    case Email => a.(email := value)
    case Phno => a.(phno := value)
    case Age => a.(age := UpdateAdmin.AgeText(value))
    case Gender => a.(gender := value)
    case Status => a.(status := Some(value))
  }

  /** Typing into a field again replaces what was typed there before. */
  lemma AssignOverwrites(a: Admin, field: Field, v: string, w: string)
    ensures Assign(Assign(a, field, v), field, w) == Assign(a, field, w)
  {
  }

  /** Edits to two different fields do not interfere: their order does not matter. */
  lemma AssignCommutes(a: Admin, f: Field, v: string, g: Field, w: string)
    requires f != g
    ensures Assign(Assign(a, f, v), g, w) == Assign(Assign(a, g, w), f, v)
  {
  }

  /** Of the fields the session decision reads, only an email or status edit can change one. */
  lemma AssignKeepsDecision(a: Admin, field: Field, value: string, original: Admin, success: bool)
    requires field != Email && field != Status
    ensures Decide(success, Assign(a, field, value), original) == Decide(success, a, original)
  {
  }

  /** What `findAdminByEmail` produced: the record, or an exception with its message. */
  datatype AdminFetch = Found(admin: Admin) | Failed(message: Option<string>)

  const MissingAuth := "Missing authentication details. Please login again."
  const FetchFailed := "Failed to fetch admin details"

  /** The message shown after a successful update. */
  datatype Notice = NoNotice | EmailChanged | BecameInactive | Updated

  /** What `handleUpdate` does with the result: end the session (and why), keep it, or retry. */
  datatype Decision = EndSession(reason: Notice) | KeepSession | Retry

  /** The administrator's own status change that signs them out: to INACTIVE from anything else. */
  predicate Deactivates(edited: Admin, original: Admin)
  {
    edited.status == Some("INACTIVE") && original.status != Some("INACTIVE")
  }

  /** The three-way decision after the update, the email test before the status test. */
  function Decide(success: bool, edited: Admin, original: Admin): (d: Decision)
    ensures d == Retry <==> !success
    ensures d == EndSession(EmailChanged) <==> success && edited.email != original.email
    ensures d == EndSession(BecameInactive) <==>
      success && edited.email == original.email && Deactivates(edited, original)
    ensures d.EndSession? ==> d.reason == EmailChanged || d.reason == BecameInactive
  {
    if !success then Retry
    else if edited.email != original.email then EndSession(EmailChanged)
    else if Deactivates(edited, original) then EndSession(BecameInactive)
    else KeepSession
  }

  /** A successful update keeps the session exactly when it changes neither the email nor the status to INACTIVE. */
  lemma KeepsSession(edited: Admin, original: Admin)
    ensures Decide(true, edited, original) == KeepSession <==>
      edited.email == original.email && !Deactivates(edited, original)
  {
  }

  /** Changing the email and deactivating at once is reported as the email change. */
  lemma EmailFirst(edited: Admin, original: Admin)
    requires edited.email != original.email && Deactivates(edited, original)
    ensures Decide(true, edited, original) == EndSession(EmailChanged)
  {
  }

  /** Saving an already inactive record unchanged keeps the session. */
  lemma StillInactive(a: Admin)
    requires a.status == Some("INACTIVE")
    ensures Decide(true, a, a) == KeepSession
  {
  }

  class Page {
    var admin: Option<Admin>
    var loading: bool
    var error: Option<string>
    var modalOpen: bool
    var formData: Option<Admin>
    var formState: State<UpdateAdmin.Errors>
    var notice: Notice
    /** Where the page sent the browser, once a session has ended. */
    var redirect: Option<string>
    const session: AuthStore

    /** There is a form to edit only once an administrator has been loaded. */
    predicate Valid()
      reads this
    {
      formData.Some? ==> admin.Some?
    }

    constructor (store: AuthStore)
      ensures Valid() && session == store
      ensures admin == None && loading && error == None && !modalOpen && formData == None
      ensures formState == State(UpdateAdmin.Clean, false, None) && notice == NoNotice && redirect == None
    {
      session := store;
      admin, loading, error, modalOpen, formData := None, true, None, false, None;
      formState, notice, redirect := State(UpdateAdmin.Clean, false, None), NoNotice, None;
    }

    /**
     * `fetchAdmin`, with the outcome of `findAdminByEmail`, followed by the effect that copies a
     * loaded administrator into the form. Without an email or a token nothing is fetched.
     */
    method FetchAdmin(result: AdminFetch)
      requires Valid()
      modifies this, session
      ensures Valid() && !loading
      ensures modalOpen == old(modalOpen) && formState == old(formState) && notice == old(notice) && redirect == old(redirect)
      ensures old(session.email) == "" || old(session.jwt) == "" ==>
        error == Some(MissingAuth) && admin == old(admin) && formData == old(formData)
        && session.State() == old(session.State())
      ensures old(session.email) != "" && old(session.jwt) != "" && result.Found? ==>
        error == None && admin == Some(result.admin) && formData == Some(result.admin)
        && session.State() == Reduce(old(session.State()), SetName(result.admin.name), t => t)
      ensures old(session.email) != "" && old(session.jwt) != "" && result.Failed? ==>
        error == Some(OrElse(result.message, FetchFailed)) && admin == old(admin) && formData == old(formData)
        && session.State() == old(session.State())
    {
      loading := true;
      error := None;
      if session.email == "" || session.jwt == "" {
        error := Some(MissingAuth);
      } else if result.Found? {
        admin := Some(result.admin);
        session.SetNameSclice(result.admin.name);
        formData := admin;
      } else {
        error := Some(OrElse(result.message, FetchFailed));
      }
      loading := false;
    }

    /** `handleInputChange(field, value)`: there is nothing to edit before the form holds a record. */
    method Edit(field: Field, value: string)
      requires Valid()
      modifies this
      ensures Valid()
      ensures formData == if old(formData).Some? then Some(Assign(old(formData).value, field, value)) else None
      ensures admin == old(admin) && loading == old(loading) && error == old(error) && modalOpen == old(modalOpen)
      ensures formState == old(formState) && notice == old(notice) && redirect == old(redirect)
    {
      if formData.Some? {
        formData := Some(Assign(formData.value, field, value));
      }
    }

    /**
     * `handleUpdate`, with the outcome of the PUT and the timers' effects applied at once. The
     * record is looked up by the email it had before the edit.
     */
    method HandleUpdate(outcome: Outcome, decrypt: string -> string, isEmail: string -> bool)
      returns (r: Option<Submission<UpdateAdmin.Errors>>)
      requires Valid()
      modifies this, session
      ensures Valid()
      ensures loading == old(loading) && error == old(error)
      ensures old(formData) == None || old(session.jwt) == "" ==>
        r == None && admin == old(admin) && formData == old(formData) && modalOpen == old(modalOpen)
        && formState == old(formState) && notice == old(notice) && redirect == old(redirect)
        && session.State() == old(session.State())
      ensures old(formData).Some? && old(session.jwt) != "" ==>
        r == Some(UpdateAdmin.Submit(old(formData).value, old(admin).value.email, decrypt(old(session.jwt)), outcome, isEmail))
        && formState == r.value.state
        && Concluded(Decide(r.value.state.success, old(formData).value, old(admin).value), old(admin), old(formData).value,
                     old(modalOpen), old(notice), old(redirect), old(session.State()))
    {
      if formData == None || session.jwt == "" {
        return None;
      }
      var edited := formData.value;
      var original := admin.value;
      var result := UpdateAdmin.Submit(edited, original.email, decrypt(session.jwt), outcome, isEmail);
      r := Some(result);
      formState := result.state;
      Conclude(Decide(result.state.success, edited, original), edited);
    }

    /** The page after the decision `d` on the edited record, from the values the fields had before. */
    ghost predicate Concluded(d: Decision, admin0: Option<Admin>, edited: Admin, modalOpen0: bool,
                              notice0: Notice, redirect0: Option<string>, session0: Session)
      reads this, session
    {
      match d
      case EndSession(reason) =>
        notice == reason && admin == Some(edited) && formData == Some(edited)
        && modalOpen == modalOpen0 && redirect == Some("/") && session.State() == Initial
      case KeepSession =>
        notice == Updated && admin == Some(edited) && formData == Some(edited)
        && !modalOpen && redirect == redirect0 && session.State() == session0
      case Retry =>
        modalOpen && formData == admin0 && admin == admin0
        && notice == notice0 && redirect == redirect0 && session.State() == session0
    }

    /** The three branches of the decision: sign out, keep the session, or reopen the form. */
    method Conclude(d: Decision, edited: Admin)
      requires Valid() && formData == Some(edited)
      requires d.EndSession? ==> d.reason != NoNotice && d.reason != Updated
      modifies this, session
      ensures Valid()
      ensures loading == old(loading) && error == old(error) && formState == old(formState)
      ensures Concluded(d, old(admin), edited, old(modalOpen), old(notice), old(redirect), old(session.State()))
    {
      match d
      case EndSession(reason) =>
        notice := reason;
        admin := formData;
        session.ClearAuth();
        redirect := Some("/");
      case KeepSession =>
        notice := Updated;
        admin := formData;
        modalOpen := false;
      case Retry =>
        modalOpen := true;
        formData := admin;
    }
  }
}
