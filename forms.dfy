/**
 * What every form action shares: the mapping of the one HTTP outcome of its request to the
 * `formErrors` message it reports. Each action's own `errors` record lists one message sequence
 * per channel, where the empty sequence stands for an absent (`undefined`) channel; zod's
 * `flatten().fieldErrors` never yields an empty list, so no information is lost.
 */
module Forms {
  import opened Wrappers
  import opened Http

  /**
   * The state an action returns: its `errors` record (of type `E`, one per action), whether it
   * succeeded, and the `Date.now()` reading for the actions that stamp their state.
   */
  datatype State<E> = State(errors: E, success: bool, timestamp: Option<int>)

  /** The returned state together with the request the action sent, if it got that far. */
  datatype Submission<E> = Submission(state: State<E>, request: Option<Request>)

  /**
   * How the action reads `exceptionMessage` from a response with an unexpected status:
   * `response.data.exceptionMessage` (a `null` body throws a TypeError, which the catch-all turns
   * into the internal-error message), `response.data?.exceptionMessage`, or not at all.
   */
  datatype Access = Direct | Guarded | Fixed

  /** The fixed messages for an unexpected status, an HTTP-client error and any other exception. */
  datatype Fallbacks = Fallbacks(rejected: string, failed: string, internal: string)

  /** The catch-all message shared by the member, trainer, membership, admin and login actions. */
  const Internal := "Some internal error occurred. Please try again later."

  predicate Nonblank(fb: Fallbacks)
  {
    fb.rejected != "" && fb.failed != "" && fb.internal != ""
  }

  /** The one `formErrors` message for an outcome that is not the expected status. */
  function Reason(outcome: Outcome, access: Access, fb: Fallbacks): (m: string)
    ensures outcome.Response? && access == Direct && outcome.data.Data? ==>
      m == OrElse(outcome.data.exceptionMessage, fb.rejected)
    ensures outcome.Response? && access == Direct && outcome.data.NoData? ==> m == fb.internal
    ensures outcome.Response? && access == Guarded ==> m == OrElse(ServerMessage(outcome.data), fb.rejected)
    ensures outcome.Response? && access == Fixed ==> m == fb.rejected
    ensures outcome.ClientError? ==> m == OrElse(outcome.serverMessage, fb.failed)
    ensures outcome.OtherError? ==> m == fb.internal
  {
    match outcome
    case Response(_, data) =>
      (match access
       case Direct => if data.NoData? then fb.internal else OrElse(data.exceptionMessage, fb.rejected)
       case Guarded => OrElse(ServerMessage(data), fb.rejected)
       case Fixed => fb.rejected)
    case ClientError(message) => OrElse(message, fb.failed)
    case OtherError => fb.internal
  }

  /** The message shown is a non-empty message supplied by the server, or else one of the fallbacks. */
  lemma ReasonOrigin(outcome: Outcome, access: Access, fb: Fallbacks)
    ensures var m := Reason(outcome, access, fb);
      m in {fb.rejected, fb.failed, fb.internal}
      || (m != "" && (outcome.ClientError? ==> outcome.serverMessage == Some(m))
                  && (outcome.Response? ==> ServerMessage(outcome.data) == Some(m)))
    ensures Nonblank(fb) ==> Reason(outcome, access, fb) != ""
  {
  }

  /**
   * The `formErrors` channel after the request: absent exactly for the expected status, and
   * otherwise the one reason.
   */
  function Settle(outcome: Outcome, expected: int, access: Access, fb: Fallbacks): (r: seq<string>)
    ensures r == [] <==> outcome.Response? && outcome.status == expected
    ensures r != [] ==> r == [Reason(outcome, access, fb)]
    ensures Nonblank(fb) && r != [] ==> r[0] != ""
  {
    if outcome.Response? && outcome.status == expected then [] else [Reason(outcome, access, fb)]
  }
}
