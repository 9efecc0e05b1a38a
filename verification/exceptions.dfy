/** The exceptions of the package, and the Python built-in exceptions the
    modelled code can raise, as one error value; `Result` carries either a
    value or the exception that escaped. */
module Exceptions {
  import opened Values
  import opened Resources
  import opened RequestQuery

  /** The Python built-in exception classes that the modelled code raises. */
  datatype Builtin = TypeError | AttributeError | ValueError | KeyError | IndexError | ZeroDivisionError | NameError | OtherError

  /** An OperationError: an exception that is reported to the client as an
      OperationOutcome with an HTTP status code. Its defaults are those of
      the Python constructor. */
  datatype OperationError = OperationError(
    severity: string := "error",
    code: string := "exception",
    diagnostics: Option<string> := Some(""),
    statusCode: int := 500)

  datatype Error =
    | DoesNotExist(pk: Option<Value> := None, resourceType: Option<string> := None)
    | QueryValidation(message: string)
    | MappingValidation(message: string)
    | Configuration(message: string)
    | InvalidOperation(message: string)
    | UnsupportedOperation(message: string)
    | MappingException(message: string)
    | Authorization(auditEvent: AuditEvent, query: Option<FhirRequestQuery> := None)
    | Operation(op: OperationError)
    | FhirValidation(message: string)
    | Raised(kind: Builtin, message: string)

  datatype Result<+T> = Ok(value: T) | Err(error: Error)
  {
    predicate IsFailure() { Err? }
    function PropagateFailure<U>(): Result<U> requires Err? { Err(error) }
    function Extract(): T requires Ok? { value }
  }

  /** `"{}".format(e)`: the message an exception was raised with. The
      package's own DoesNotExistError and AuthorizationError are raised with
      keyword arguments only, so their text is empty. */
  function Describe(e: Error): string
  {
    match e
    case DoesNotExist(_, _) => ""
    case Authorization(_, _) => ""
    case Operation(_) => ""
    case QueryValidation(m) => m
    case MappingValidation(m) => m
    case Configuration(m) => m
    case InvalidOperation(m) => m
    case UnsupportedOperation(m) => m
    case MappingException(m) => m
    case FhirValidation(m) => m
    case Raised(_, m) => m
  }

  /** `OperationError.to_fhir()`: an OperationOutcome with exactly one issue
      carrying the severity, code and diagnostics. */
  function ToFhir(e: OperationError): (o: OperationOutcome)
    ensures |o.issues| == 1
    ensures o.issues[0].severity == e.severity && o.issues[0].code == e.code
    ensures o.issues[0].diagnostics == e.diagnostics && o.issues[0].detailsText.None?
  {
    OperationOutcome([Issue(e.severity, e.code, e.diagnostics, None)])
  }

  /** The outcome tells two operation errors apart exactly when they differ
      in something other than the status code, which it does not carry. */
  lemma ToFhirForgetsOnlyStatus(a: OperationError, b: OperationError)
    ensures ToFhir(a) == ToFhir(b) <==> a.(statusCode := 0) == b.(statusCode := 0)
  {
    if ToFhir(a) == ToFhir(b) {
      assert ToFhir(a).issues[0] == ToFhir(b).issues[0];
    }
  }

  /** A default-constructed OperationError is a 500 "exception" error with
      empty diagnostics. */
  lemma OperationErrorDefaults()
    ensures OperationError() == OperationError("error", "exception", Some(""), 500)
    ensures ToFhir(OperationError()).issues == [Issue("error", "exception", Some(""), None)]
  {
  }
}
