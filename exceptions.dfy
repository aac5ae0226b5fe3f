/** The controller advice: every exception that leaves a controller becomes a
    response with an HTTP status and a list of messages. */
module ExceptionHandling {

  /** One rejected field of a request body. */
  datatype FieldError = FieldError(field: string, message: string)

  /** The exception kinds the advice tells apart. `Other` is every remaining
      exception, among them IllegalArgumentException from a value conversion,
      ConstraintViolationException and NullPointerException. */
  datatype Exception =
    | ResourceNotFound(message: string)
    | NoResourceFound(message: string)
    | RequiredObjectIsNull(message: string)
    | IllegalState(message: string)
    | BadCredentials(message: string)
    | InvalidJwtAuthentication(message: string)
    | MethodArgumentNotValid(fieldErrors: seq<FieldError>)
    | Other(message: string)

  /** The message of RequiredObjectIsNullException built without an argument. */
  const NullObjectMessage: string := "It is not allowed to pass a null object"

  /** The status and the message list of the response body. */
  datatype Response = Response(status: int, messages: seq<string>)

  const BadRequest: int := 400
  const Unauthorized: int := 401
  const NotFound: int := 404
  const Conflict: int := 409
  const InternalServerError: int := 500

  /** One "field: message" entry of a validation response. */
  function FieldMessage(e: FieldError): string {
    e.field + ": " + e.message
  }

  /** The entries of a validation response, one per field error, in order. */
  function FieldMessages(errors: seq<FieldError>): (ms: seq<string>)
    ensures |ms| == |errors|
    ensures forall i :: 0 <= i < |errors| ==> ms[i] == FieldMessage(errors[i])
  {
    seq(|errors|, i requires 0 <= i < |errors| => FieldMessage(errors[i]))
  }

  /** The most specific handler decides: not-found kinds give 404, a missing body
      or an invalid argument 400, a conflicting state 409, bad credentials or an
      invalid token 401, anything else 500. Every response but the validation one
      carries exactly the exception's own message. */
  function Handle(e: Exception): (resp: Response)
    ensures resp.status == NotFound <==> e.ResourceNotFound? || e.NoResourceFound?
    ensures resp.status == BadRequest <==> e.RequiredObjectIsNull? || e.MethodArgumentNotValid?
    ensures resp.status == Conflict <==> e.IllegalState?
    ensures resp.status == Unauthorized <==> e.BadCredentials? || e.InvalidJwtAuthentication?
    ensures resp.status == InternalServerError <==> e.Other?
    ensures !e.MethodArgumentNotValid? ==> resp.messages == [e.message]
    ensures e.MethodArgumentNotValid? ==> resp.messages == FieldMessages(e.fieldErrors)
  {
    match e
    case ResourceNotFound(m) => Response(NotFound, [m])
    case NoResourceFound(m) => Response(NotFound, [m])
    case RequiredObjectIsNull(m) => Response(BadRequest, [m])
    case IllegalState(m) => Response(Conflict, [m])
    case BadCredentials(m) => Response(Unauthorized, [m])
    case InvalidJwtAuthentication(m) => Response(Unauthorized, [m])
    case MethodArgumentNotValid(errors) => Response(BadRequest, FieldMessages(errors))
    case Other(m) => Response(InternalServerError, [m])
  }
}
