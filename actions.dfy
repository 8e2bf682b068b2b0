/**
 * The server action that wraps the validation flow: whatever the flow does,
 * the caller gets a `{success, data, error}` record and never an exception.
 */
module Actions {
  import opened Wrappers

  /** How the awaited flow call ended. */
  datatype CallOutcome<T> =
    | Returned(out: T)             // the call produced a value
    | ThrewError(message: string)  // it threw an `Error` with this `message`
    | ThrewOther                   // it threw something that is not an `Error`

  /** The record handed back to the client. */
  datatype ActionResult<T> = ActionResult(success: bool, data: Option<T>, error: Option<string>)

  const UnknownErrorMessage: string := "An unknown error occurred."

  /** The three fields agree: success exactly when there is data and no error. */
  predicate WellFormed<T>(r: ActionResult<T>)
  {
    (r.success <==> r.data.Some?) && (r.success <==> r.error.None?)
  }

  /** `validateInputsAction`: the catch clause turns every throw into a failure record. */
  function ValidateInputsAction<T>(outcome: CallOutcome<T>): (r: ActionResult<T>)
    ensures WellFormed(r)
    ensures r.success <==> outcome.Returned?
    ensures outcome.Returned? ==> r.data == Some(outcome.out)
    ensures outcome.ThrewError? ==> r.error == Some(outcome.message)
    ensures outcome.ThrewOther? ==> r.error == Some(UnknownErrorMessage)
  {
    match outcome
    case Returned(out) => ActionResult(true, Some(out), None)
    case ThrewError(message) => ActionResult(false, None, Some(message))
    case ThrewOther => ActionResult(false, None, Some(UnknownErrorMessage))
  }

  /**
   * The record loses exactly one distinction: a non-`Error` throw and an
   * `Error` whose message is the generic text look the same to the client.
   */
  lemma ValidateInputsActionCollisions<T>(a: CallOutcome<T>, b: CallOutcome<T>)
    ensures ValidateInputsAction(a) == ValidateInputsAction(b) <==>
      || a == b
      || (a == ThrewOther && b == ThrewError(UnknownErrorMessage))
      || (b == ThrewOther && a == ThrewError(UnknownErrorMessage))
  {
    var ra, rb := ValidateInputsAction(a), ValidateInputsAction(b);
    if ra == rb {
      match a
      case Returned(x) => assert rb.data == Some(x);
      case ThrewError(m) => assert rb.error == Some(m);
      case ThrewOther => assert rb.error == Some(UnknownErrorMessage);
    }
  }

  /** The client's `result.success && result.data` test is the same as `result.success`. */
  lemma SuccessImpliesData<T>(outcome: CallOutcome<T>)
    ensures var r := ValidateInputsAction(outcome);
      (r.success && r.data.Some?) <==> r.success
  {
  }
}
