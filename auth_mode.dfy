/** The auth-mode HTTP handlers: `POST /api/v1/login-code` turns the outcome of
    the login (a login code, or the exception it raised, or the overall timeout)
    into a response body and an HTTP status; `POST /api/v1/activate` always
    reports that no activation is open. */
module AuthMode {
  import opened Common

  datatype AuthResponseStatus = Success | Error | Invalid | Banned | Timeout
  {
    /** The enum member's `.name`, which is what the response carries. */
    function Name(): string
    {
      match this
      case Success => "SUCCESS"
      case Error => "ERROR"
      case Invalid => "INVALID"
      case Banned => "BANNED"
      case Timeout => "TIMEOUT"
    }

    /** The HTTP status each outcome is answered with. */
    function StatusCode(): int
    {
      match this
      case Success => 200
      case Error => 500
      case Invalid => 400
      case Banned => 418
      case Timeout => 408
    }
  }

  /** The response body; `login_code` defaults to the empty string. */
  datatype AuthResponse = AuthResponse(status: string, loginCode: string)

  datatype Response<T> = Response(body: T, statusCode: int)

  /** The exception classes the handler's `except` clauses name. An exception
      is described by the set of these classes it is an instance of (a
      subclass of `LoginException` is an instance of both); the empty set is
      any other `Exception`. */
  datatype ExceptionClass = InvalidCredentials | PtcBanned | LoginException | TimeoutError

  /** What awaiting `ptc_auth.auth(...)` under `AUTH_TIMEOUT` gives the handler. */
  datatype LoginOutcome = LoginCode(code: string) | Raised(classes: set<ExceptionClass>)

  /** The first `except` clause in source order that matches. */
  function Classify(outcome: LoginOutcome): (st: AuthResponseStatus)
    ensures st == Success <==> outcome.LoginCode?
    ensures outcome == Raised({}) ==> st == Error
  {
    match outcome
    case LoginCode(_) => Success
    case Raised(cs) =>
      if InvalidCredentials in cs then Invalid
      else if PtcBanned in cs then Banned
      else if LoginException in cs then Error
      else if TimeoutError in cs then Timeout
      else Error
  }

  function AuthEndpoint(outcome: LoginOutcome): (r: Response<AuthResponse>)
    ensures outcome.LoginCode? ==> r == Response(AuthResponse("SUCCESS", outcome.code), 200)
    ensures outcome.Raised? ==> r.body.loginCode == "" && r.statusCode != 200
    ensures outcome.Raised? && InvalidCredentials in outcome.classes ==>
              r == Response(AuthResponse("INVALID", ""), 400)
    ensures outcome.Raised? && InvalidCredentials !in outcome.classes && PtcBanned in outcome.classes ==>
              r == Response(AuthResponse("BANNED", ""), 418)
    ensures outcome.Raised? && InvalidCredentials !in outcome.classes
            && PtcBanned !in outcome.classes && LoginException in outcome.classes ==>
              r == Response(AuthResponse("ERROR", ""), 500)
    ensures outcome.Raised? && InvalidCredentials !in outcome.classes && PtcBanned !in outcome.classes
            && LoginException !in outcome.classes && TimeoutError in outcome.classes ==>
              r == Response(AuthResponse("TIMEOUT", ""), 408)
    ensures outcome == Raised({}) ==> r == Response(AuthResponse("ERROR", ""), 500)
  {
    var status := Classify(outcome);
    var code := if outcome.LoginCode? then outcome.code else "";
    Response(AuthResponse(status.Name(), code), status.StatusCode())
  }

  /** The five status names are distinct, and so are their HTTP codes. */
  lemma StatusesDistinct(a: AuthResponseStatus, b: AuthResponseStatus)
    requires a != b
    ensures a.Name() != b.Name()
    ensures a.StatusCode() != b.StatusCode()
  {
  }

  /** Every response names exactly one status and carries that status's code;
      only a success carries a login code. */
  lemma ResponseHasOneStatus(outcome: LoginOutcome)
    ensures exists st: AuthResponseStatus ::
              AuthEndpoint(outcome).body.status == st.Name()
              && AuthEndpoint(outcome).statusCode == st.StatusCode()
    ensures forall st: AuthResponseStatus :: AuthEndpoint(outcome).body.status == st.Name() ==> st == Classify(outcome)
    ensures AuthEndpoint(outcome).body.loginCode != "" ==> outcome.LoginCode?
  {
    var st := Classify(outcome);
    assert AuthEndpoint(outcome).body.status == st.Name();
  }

  datatype ActivateRequest = ActivateRequest(email: string, code: string)

  datatype ActivateResponseStatus = ActivationSucceeded | NoOpenActivation
  {
    function Name(): string
    {
      match this
      case ActivationSucceeded => "SUCCESS"
      case NoOpenActivation => "NO_OPEN_ACTIVATION"
    }
  }

  datatype ActivateResponse = ActivateResponse(
    status: string,
    username: Option<string>,
    email: Option<string>,
    password: Option<string>)

  function ActivateEndpoint(request: ActivateRequest): (r: ActivateResponse)
    ensures r == ActivateResponse("NO_OPEN_ACTIVATION", None, None, None)
  {
    ActivateResponse(NoOpenActivation.Name(), None, None, None)
  }
}
