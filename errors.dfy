/**
 * The server's error classes: `BaseError` extends `Error` with an HTTP status
 * code, and `ForecastError` and `TriageError` extend `BaseError`, keeping the
 * stack of the error they wrap. An error object is a class instance whose
 * constructors assign its fields, as the source's constructors do.
 */
module Errors {
  import opened Wrappers

  /** `StatusCodes.INTERNAL_SERVER_ERROR`. */
  const InternalServerError: int := 500

  /**
   * The class an error object was built by: `Error` itself, a built-in
   * subclass of it such as `TypeError` (or any class outside this model that
   * does not extend `BaseError`), or one of the three server classes.
   */
  datatype ErrorClass =
    | ErrorRoot
    | BuiltIn(className: string)
    | BaseErrorClass
    | ForecastErrorClass
    | TriageErrorClass

  /** The class a class directly extends; `Error` extends nothing here. */
  function Parent(c: ErrorClass): Option<ErrorClass>
  {
    match c
    case ErrorRoot => None
    case BuiltIn(_) => Some(ErrorRoot)
    case BaseErrorClass => Some(ErrorRoot)
    case ForecastErrorClass => Some(BaseErrorClass)
    case TriageErrorClass => Some(BaseErrorClass)
  }

  /** How far a class is from `Error` along its `extends` chain. */
  function Depth(c: ErrorClass): nat
  {
    match c
    case ErrorRoot => 0
    case BuiltIn(_) => 1
    case BaseErrorClass => 1
    case ForecastErrorClass => 2
    case TriageErrorClass => 2
  }

  /** `x instanceof target` for an object built by `c`: `target` is `c` or one of its ancestors. */
  predicate InstanceOf(c: ErrorClass, target: ErrorClass)
    decreases Depth(c)
  {
    c == target || (Parent(c).Some? && InstanceOf(Parent(c).value, target))
  }

  /**
   * The `instanceof` chain: exactly the three server classes are
   * `BaseError`s, only a `ForecastError` is a `ForecastError` and only a
   * `TriageError` a `TriageError`, and every class is an `Error`.
   */
  lemma {:induction false} InstanceOfChain(c: ErrorClass)
    ensures InstanceOf(c, BaseErrorClass) <==>
      c == BaseErrorClass || c == ForecastErrorClass || c == TriageErrorClass
    ensures InstanceOf(c, ForecastErrorClass) <==> c == ForecastErrorClass
    ensures InstanceOf(c, TriageErrorClass) <==> c == TriageErrorClass
    ensures InstanceOf(c, ErrorRoot)
    decreases Depth(c)
  {
    match c
    case ErrorRoot =>
    case BuiltIn(_) =>
      assert InstanceOf(ErrorRoot, ErrorRoot);
    case BaseErrorClass =>
      assert InstanceOf(ErrorRoot, ErrorRoot);
    case ForecastErrorClass =>
      InstanceOfChain(BaseErrorClass);
    case TriageErrorClass =>
      InstanceOfChain(BaseErrorClass);
  }

  /** `this.constructor.name`: the name of the class that built the object. */
  function ClassName(c: ErrorClass): string
  {
    match c
    case ErrorRoot => "Error"
    case BuiltIn(className) => className
    case BaseErrorClass => "BaseError"
    case ForecastErrorClass => "ForecastError"
    case TriageErrorClass => "TriageError"
  }

  /**
   * An error object. `statusCode` is `None` on objects that are not
   * `BaseError`s, which have no such property; `stack` is `None` when the
   * property is `undefined`. `captured` arguments stand for the trace
   * `Error.captureStackTrace` records, which depends on the call site.
   */
  class ErrorObject {
    var cls: ErrorClass
    var name: string
    var message: string
    var statusCode: Option<int>
    var stack: Option<string>

    /** Every `BaseError` carries a status code: its constructor always sets one. */
    predicate Valid()
      reads this
    {
      InstanceOf(cls, BaseErrorClass) ==> statusCode.Some?
    }

    /** `new Error(message)` or a built-in subclass of it: named after its class, with the captured stack. */
    constructor Native(c: ErrorClass, message: string, captured: string)
      requires !InstanceOf(c, BaseErrorClass)
      ensures cls == c && name == ClassName(c) && this.message == message
      ensures statusCode.None? && stack == Some(captured)
      ensures Valid()
    {
      cls := c;
      name := ClassName(c);
      this.message := message;
      statusCode := None;
      stack := Some(captured);
    }

    /**
     * `new BaseError(message, statusCode)`: the status code defaults to 500
     * when it is not given, the name is the class name and the stack is the
     * one captured for the new object.
     */
    constructor Base(message: string, statusCode: Option<int>, captured: string)
      ensures cls == BaseErrorClass && name == "BaseError" && this.message == message
      ensures this.statusCode == Some(if statusCode.Some? then statusCode.value else InternalServerError)
      ensures stack == Some(captured)
      ensures Valid()
    {
      cls := BaseErrorClass;
      name := ClassName(BaseErrorClass);
      this.message := message;
      this.statusCode := Some(if statusCode.Some? then statusCode.value else InternalServerError);
      stack := Some(captured);
    }

    /**
     * `new ForecastError(message, originalError)`: always status 500; the
     * stack is the original error's when one is given (even an `undefined`
     * one), and the captured one otherwise.
     */
    constructor Forecast(message: string, original: Option<ErrorObject>, captured: string)
      ensures cls == ForecastErrorClass && name == "ForecastError" && this.message == message
      ensures statusCode == Some(InternalServerError)
      ensures stack == if original.Some? then original.value.stack else Some(captured)
      ensures Valid()
    {
      cls := ForecastErrorClass;
      name := ClassName(ForecastErrorClass);
      this.message := message;
      statusCode := Some(InternalServerError);
      stack := Some(captured);
      if original.Some? {
        stack := original.value.stack;
      }
    }

    /** `new TriageError(message, originalError)`, built exactly as a `ForecastError` is. */
    constructor Triage(message: string, original: Option<ErrorObject>, captured: string)
      ensures cls == TriageErrorClass && name == "TriageError" && this.message == message
      ensures statusCode == Some(InternalServerError)
      ensures stack == if original.Some? then original.value.stack else Some(captured)
      ensures Valid()
    {
      cls := TriageErrorClass;
      name := ClassName(TriageErrorClass);
      this.message := message;
      statusCode := Some(InternalServerError);
      stack := Some(captured);
      if original.Some? {
        stack := original.value.stack;
      }
    }
  }
}
