/** The sign-in form: its schema, and the loading and error flags its
    submit handler sets and clears. */
module LoginForm {
  import opened Wrappers
  import opened AuthService
  import AuthContext

  const INVALID_CREDENTIALS := "Credenciales inválidas. Por favor, verifica tu nombre de usuario y contraseña."
  const LOGIN_FAILED := "Error al iniciar sesión. Por favor, intenta nuevamente."

  /** How the `login` the form is given ends: it reports success, reports
      failure, or throws. */
  datatype LoginOutcome = LoggedIn | Refused | Raised

  /** The schema: both fields are required. */
  predicate LoginValid(username: string, password: string)
  {
    username != "" && password != ""
  }

  /** The session's `login` reports a boolean and never throws. */
  function OutcomeOf(ok: bool): (o: LoginOutcome)
    ensures o != Raised
    ensures o == LoggedIn <==> ok
  {
    if ok then LoggedIn else Refused
  }

  class LoginFormState {
    var loading: bool
    var error: Option<string>
    /** formik's `isSubmitting`. */
    var submitting: bool
    /** How many times `onLoginSuccess` has been called. */
    var notifications: nat

    constructor ()
      ensures !loading && error == None && !submitting && notifications == 0
    {
      loading, error, submitting, notifications := false, None, false, 0;
    }

    /** Both inputs are disabled while loading. */
    predicate InputsDisabled()
      reads this
    {
      loading
    }

    predicate ButtonDisabled()
      reads this
    {
      loading || submitting
    }

    /** formik's submit followed by `handleLoginSubmit`. A form that fails
        the schema never reaches the handler; a submit while loading is
        dropped; otherwise the credentials are sent with loading set and the
        error cleared, and the outcome decides the rest. formik clears
        `isSubmitting` once the handler is done, on every path. */
    method Submit(username: string, password: string, outcome: LoginOutcome) returns (sent: Option<Credentials>)
      modifies this`loading, this`error, this`submitting, this`notifications
      ensures !submitting
      ensures sent.Some? <==> LoginValid(username, password) && !old(loading)
      ensures sent.Some? ==> sent.value == Credentials(username, password)
      ensures sent.None? ==> loading == old(loading) && error == old(error) && notifications == old(notifications)
      ensures sent.Some? && outcome == LoggedIn ==>
        loading && error == None && notifications == old(notifications) + 1
      ensures sent.Some? && outcome == Refused ==>
        !loading && error == Some(INVALID_CREDENTIALS) && notifications == old(notifications)
      ensures sent.Some? && outcome == Raised ==>
        !loading && error == Some(LOGIN_FAILED) && notifications == old(notifications)
    {
      submitting := true;
      if !LoginValid(username, password) {
        submitting := false;
        return None;
      }
      if loading {
        submitting := false;
        return None;
      }
      loading := true;
      error := None;
      sent := Some(Credentials(username, password));
      match outcome {
        case LoggedIn =>
          notifications := notifications + 1;
        case Refused =>
          error := Some(INVALID_CREDENTIALS);
          loading := false;
          submitting := false;
        case Raised =>
          error := Some(LOGIN_FAILED);
          loading := false;
          submitting := false;
      }
      submitting := false;
    }
  }

  /** The form wired to the session: the generic error can never show,
      since the session's `login` never throws, and the form notifies its
      parent exactly when the session now holds the returned user. */
  method SignIn(form: LoginFormState, session: AuthContext.AuthProvider, username: string, password: string,
                response: Response<LoginData>)
    returns (sent: Option<Credentials>)
    modifies form, session, session.storage
    ensures form.error != Some(LOGIN_FAILED) || form.error == old(form.error)
    ensures sent.Some? ==> (form.notifications == old(form.notifications) + 1 <==> session.IsAuthenticated() && response.Succeeded?)
    ensures sent.Some? && response.Succeeded? ==> session.user == Some(response.data.user)
  {
    if LoginValid(username, password) && !form.loading {
      var ok := session.Login(username, password, response);
      sent := form.Submit(username, password, OutcomeOf(ok));
    } else {
      sent := form.Submit(username, password, Refused);
    }
  }
}
