/** The one-page sign-up form: the same schema and conversion as the
    wizard, with a success banner instead of a callback. */
module RegisterPage {
  import opened Wrappers
  import opened Registration

  class RegisterPageState {
    var values: RegistrationValues
    var loading: bool
    var error: Option<string>
    var success: bool
    /** formik's `isSubmitting`, true while a submit is being handled. */
    var submitting: bool

    constructor ()
      ensures values == EMPTY_VALUES && !loading && error == None && !success && !submitting
    {
      values, loading, error, success, submitting := EMPTY_VALUES, false, None, false, false;
    }

    /** The "Registrarse" button is disabled while loading or submitting. */
    predicate SubmitDisabled()
      reads this
    {
      loading || submitting
    }

    method Edit(v: RegistrationValues)
      modifies this`values
      ensures values == v
    {
      values := v;
    }

    /** A submit: a form the schema rejects is not sent; an accepted one is
        sent as `processedValues`, and the session's `register` answer sets
        either the success flag or the error. Loading always ends cleared. */
    method Submit(isEmail: string -> bool, registerSucceeded: bool) returns (sent: Option<RegistrationRequest>)
      requires !SubmitDisabled()
      modifies this`loading, this`error, this`success
      ensures !loading
      ensures sent.Some? <==> FormValid(values, isEmail)
      ensures sent.Some? ==> sent.value == Processed(values)
      ensures sent.Some? && registerSucceeded ==> success && error == None
      ensures sent.Some? && !registerSucceeded ==> success == old(success) && error == Some(REGISTER_REFUSED)
      ensures sent.None? ==> success == old(success) && error == old(error)
    {
      if !FormValid(values, isEmail) {
        return None;
      }
      loading := true;
      error := None;
      sent := Some(Processed(values));
      if registerSucceeded {
        success := true;
      } else {
        error := Some(REGISTER_REFUSED);
      }
      loading := false;
    }
  }
}
