/**
 * The Express error middleware: every error that reaches it is answered with
 * one status code and one JSON body, chosen by an `instanceof` if-chain.
 * `process.env.NODE_ENV` is a parameter; the `console.error` trace is not
 * modelled.
 */
module ErrorMiddleware {
  import opened Wrappers
  import opened Errors

  /** The JSON body as sent: `stack` is present only when the property was added with a defined value. */
  datatype Body = Body(error: string, message: string, stack: Option<string>)

  datatype Response = Response(status: int, body: Body)

  /** Which return of the if-chain answers. */
  datatype Branch = BaseBranch | ForecastBranch | TriageBranch | DefaultBranch

  /**
   * The if-chain on the error's class, tested in source order. The
   * `ForecastError` and `TriageError` tests come after the `BaseError` one,
   * which both classes already pass, so their branches are never taken: an
   * error is answered from its own fields exactly when it is a `BaseError`,
   * and with the default text otherwise.
   */
  function Classify(c: ErrorClass): (b: Branch)
    ensures b != ForecastBranch && b != TriageBranch
    ensures b == BaseBranch <==>
      c == BaseErrorClass || c == ForecastErrorClass || c == TriageErrorClass
    ensures b == DefaultBranch <==> !InstanceOf(c, BaseErrorClass)
  {
    InstanceOfChain(c);
    if InstanceOf(c, BaseErrorClass) then BaseBranch
    else if InstanceOf(c, ForecastErrorClass) then ForecastBranch
    else if InstanceOf(c, TriageErrorClass) then TriageBranch
    else DefaultBranch
  }

  const DefaultResponse: Response :=
    Response(InternalServerError, Body("Internal Server Error", "An unexpected error occurred", None))

  /**
   * The if-chain on the fields of the error: a `BaseError`, subclasses
   * included, is answered with its own status code, name and message, plus
   * its stack when `NODE_ENV` is "development" and the stack is defined; any
   * other error gets 500 and a fixed text that does not reveal its message.
   * The "Forecast Error"/"Triage Error" answers are never produced.
   */
  function Answer(c: ErrorClass, name: string, message: string, statusCode: Option<int>,
                  stack: Option<string>, nodeEnv: Option<string>): (r: Response)
    requires InstanceOf(c, BaseErrorClass) ==> statusCode.Some?
    ensures InstanceOf(c, BaseErrorClass) ==>
      r.status == statusCode.value && r.body.error == name && r.body.message == message
    ensures r.body.stack.Some? <==>
      InstanceOf(c, BaseErrorClass) && nodeEnv == Some("development") && stack.Some?
    ensures r.body.stack.Some? ==> r.body.stack == stack
    ensures !InstanceOf(c, BaseErrorClass) ==> r == DefaultResponse
    ensures r.body.error in {"Forecast Error", "Triage Error"} ==>
      InstanceOf(c, BaseErrorClass) && r.body.error == name
  {
    match Classify(c)
    case BaseBranch =>
      Response(statusCode.value,
        Body(name, message, if nodeEnv == Some("development") then stack else None))
    case ForecastBranch =>
      Response(InternalServerError, Body("Forecast Error", message, None))
    case TriageBranch =>
      Response(InternalServerError, Body("Triage Error", message, None))
    case DefaultBranch =>
      DefaultResponse
  }

  /** `errorHandler(err, req, res, next)`: the one response sent for `err`. */
  function ErrorHandler(err: ErrorObject, nodeEnv: Option<string>): Response
    requires err.Valid()
    reads err
  {
    Answer(err.cls, err.name, err.message, err.statusCode, err.stack, nodeEnv)
  }

  /**
   * The answers to errors built by the server's constructors: a `BaseError`
   * keeps the status it was given (500 by default), a `ForecastError` or
   * `TriageError` is answered 500 under its class name, not under the
   * "Forecast Error"/"Triage Error" texts the chain spells out, and a
   * built-in error gets the default answer.
   */
  lemma AnswersToConstructedErrors(err: ErrorObject, nodeEnv: Option<string>)
    requires err.Valid()
    ensures err.cls == BaseErrorClass && err.name == ClassName(err.cls) ==>
      ErrorHandler(err, nodeEnv).body.error == "BaseError"
    ensures (err.cls == ForecastErrorClass || err.cls == TriageErrorClass) &&
            err.name == ClassName(err.cls) && err.statusCode == Some(InternalServerError) ==>
      ErrorHandler(err, nodeEnv).status == InternalServerError &&
      ErrorHandler(err, nodeEnv).body.error == ClassName(err.cls) &&
      ErrorHandler(err, nodeEnv).body.message == err.message
    ensures err.cls.BuiltIn? || err.cls == ErrorRoot ==> ErrorHandler(err, nodeEnv) == DefaultResponse
  {
    InstanceOfChain(err.cls);
  }

  /** The error is passed through the chain once; `nodeEnv` changes nothing but the stack. */
  lemma StackOnlyInDevelopment(err: ErrorObject, env: Option<string>)
    requires err.Valid()
    ensures ErrorHandler(err, env).status == ErrorHandler(err, Some("development")).status
    ensures ErrorHandler(err, env).body.error == ErrorHandler(err, Some("development")).body.error
    ensures ErrorHandler(err, env).body.message == ErrorHandler(err, Some("development")).body.message
    ensures env != Some("development") ==> ErrorHandler(err, env).body.stack.None?
  {
  }

  /**
   * A `BaseError` thrown with `new BaseError(message, statusCode)` is
   * answered with the given status, or 500 when none was given, under the
   * name "BaseError".
   */
  method AnswerBaseError(message: string, statusCode: Option<int>, captured: string, nodeEnv: Option<string>)
    returns (r: Response)
    ensures r.status == (if statusCode.Some? then statusCode.value else InternalServerError)
    ensures r.body.error == "BaseError" && r.body.message == message
    ensures r.body.stack == (if nodeEnv == Some("development") then Some(captured) else None)
  {
    var err := new ErrorObject.Base(message, statusCode, captured);
    InstanceOfChain(err.cls);
    r := ErrorHandler(err, nodeEnv);
  }

  /**
   * A `ForecastError` or `TriageError` is answered 500 under its class name
   * ("ForecastError", "TriageError"), never with the "Forecast Error" or
   * "Triage Error" text of the later branches; in development the body
   * carries the wrapped error's stack when there is one.
   */
  method AnswerWrappedError(forecast: bool, message: string, original: Option<ErrorObject>,
                            captured: string, nodeEnv: Option<string>)
    returns (r: Response)
    ensures r.status == InternalServerError
    ensures r.body.error == (if forecast then "ForecastError" else "TriageError")
    ensures r.body.message == message
    ensures nodeEnv == Some("development") && original.None? ==> r.body.stack == Some(captured)
    ensures nodeEnv == Some("development") && original.Some? ==> r.body.stack == original.value.stack
    ensures nodeEnv != Some("development") ==> r.body.stack.None?
  {
    var err: ErrorObject;
    if forecast {
      err := new ErrorObject.Forecast(message, original, captured);
    } else {
      err := new ErrorObject.Triage(message, original, captured);
    }
    InstanceOfChain(err.cls);
    r := ErrorHandler(err, nodeEnv);
  }
}
