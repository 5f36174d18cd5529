/**
  The global exception filter: every exception that escapes a handler
  becomes one JSON error response whose status depends on the layer the
  exception comes from. Logging is not modelled.
 */
module ExceptionFilter {
  import opened Wrappers
  import opened Exceptions

  const BadRequestStatus := 400
  const InternalServerErrorStatus := 500
  const InternalServerErrorMessage := "Internal server error"
  const UnknownName := "UnknownException"
  const UnknownCode := "UNKNOWN_ERROR"
  const UnknownMessage := "An unexpected error occurred"
  const HttpExceptionCode := "HTTP_EXCEPTION"

  /** The request fields the filter copies into a response. */
  datatype Request = Request(url: string, httpMethod: string)

  /** The error response body; `statusCode` is also the response's HTTP status. */
  datatype ErrorResponse = ErrorResponse(statusCode: int, timestamp: string, path: string, httpMethod: string,
                                         error: string, code: string, message: string)

  /** Exceptions whose details stay on the server: infrastructure failures and anything unrecognised. */
  predicate IsServerFault(e: Exception) {
    e.InfrastructureError? || e.PlainError?
  }

  /**
    `buildErrorResponse`: the request's url and method and the time are
    copied; application exceptions choose their own status, domain
    exceptions are bad requests, HTTP exceptions keep their status under the
    code "HTTP_EXCEPTION", and infrastructure failures and unknown errors
    are internal server errors whose message says nothing of the cause.
   */
  function BuildErrorResponse(exception: Exception, request: Request, timestamp: string): (r: ErrorResponse)
    ensures r.path == request.url && r.httpMethod == request.httpMethod && r.timestamp == timestamp
    ensures IsServerFault(exception)
            ==> r.statusCode == InternalServerErrorStatus && r.message in {InternalServerErrorMessage, UnknownMessage}
    ensures !IsServerFault(exception) ==> r.message == exception.message && r.error == exception.Name()
  {
    match exception
    case ApplicationError(name, code, httpStatus, message) =>
      ErrorResponse(httpStatus, timestamp, request.url, request.httpMethod, name, code, message)
    case DomainError(name, code, message) =>
      ErrorResponse(BadRequestStatus, timestamp, request.url, request.httpMethod, name, code, message)
    case InfrastructureError(name, code, _) =>
      ErrorResponse(InternalServerErrorStatus, timestamp, request.url, request.httpMethod, name, code,
                    InternalServerErrorMessage)
    case HttpError(name, status, message) =>
      ErrorResponse(status, timestamp, request.url, request.httpMethod, name, HttpExceptionCode, message)
    case PlainError(_) =>
      ErrorResponse(InternalServerErrorStatus, timestamp, request.url, request.httpMethod, UnknownName, UnknownCode,
                    UnknownMessage)
  }

  /**
    The response to an infrastructure failure does not depend on its
    message, and the response to an unknown error does not depend on the
    error at all: neither can leak what went wrong inside.
   */
  lemma ServerFaultsHideTheirMessage(name: string, code: string, message1: string, message2: string,
                                     request: Request, timestamp: string)
    ensures BuildErrorResponse(InfrastructureError(name, code, message1), request, timestamp)
            == BuildErrorResponse(InfrastructureError(name, code, message2), request, timestamp)
    ensures BuildErrorResponse(PlainError(message1), request, timestamp)
            == BuildErrorResponse(PlainError(message2), request, timestamp)
  {
  }

  /**
    The status and code by layer: an application exception's own status
    and code, 400 and its code for a domain exception, 500 for an
    infrastructure failure, an HTTP exception's own status under
    "HTTP_EXCEPTION", and 500 with "UNKNOWN_ERROR" for anything else.
   */
  lemma StatusByLayer(e: Exception, request: Request, timestamp: string)
    ensures var r := BuildErrorResponse(e, request, timestamp);
            && (e.ApplicationError? ==> r.statusCode == e.httpStatus && r.code == e.code)
            && (e.DomainError? ==> r.statusCode == 400 && r.code == e.code)
            && (e.InfrastructureError? ==> r.statusCode == 500 && r.code == e.code && r.message == "Internal server error")
            && (e.HttpError? ==> r.statusCode == e.status && r.code == "HTTP_EXCEPTION")
            && (e.PlainError? ==> r.statusCode == 500 && r.code == "UNKNOWN_ERROR" && r.error == "UnknownException")
  {
  }

  /** The application exceptions the handlers raise are answered with their own client-error statuses. */
  lemma ApplicationExceptionStatuses(m: string, request: Request, timestamp: string)
    ensures BuildErrorResponse(UserCreation(m), request, timestamp).statusCode == 400
    ensures BuildErrorResponse(UsernameAlreadyExists(m), request, timestamp).statusCode == 409
    ensures BuildErrorResponse(UserNotFound(m), request, timestamp).statusCode == 404
    ensures BuildErrorResponse(UserAuthorization(m, m), request, timestamp).statusCode == 403
    ensures BuildErrorResponse(DepositOperation(m), request, timestamp).statusCode == 400
    ensures BuildErrorResponse(ProductNotFound(m), request, timestamp).statusCode == 404
    ensures BuildErrorResponse(ProductUpdate(m), request, timestamp).statusCode == 400
    ensures BuildErrorResponse(ProductDeletion(m), request, timestamp).statusCode == 400
  {
  }

  /** The framework's HTTP exceptions the handlers raise keep their statuses. */
  lemma HttpExceptionStatuses(m: string, request: Request, timestamp: string)
    ensures BuildErrorResponse(BadRequest(m), request, timestamp).statusCode == 400
    ensures BuildErrorResponse(NotFound(m), request, timestamp).statusCode == 404
    ensures BuildErrorResponse(Forbidden(m), request, timestamp).statusCode == 403
    ensures BuildErrorResponse(Conflict(m), request, timestamp).statusCode == 409
  {
  }

  /** The HTTP response the filter writes to. */
  class HttpResponse {
    var status: int
    var body: Option<ErrorResponse>

    constructor ()
      ensures status == 200 && body == None
    {
      status := 200;
      body := None;
    }
  }

  /** `catch`: the response gets the error body and, as its status, the body's `statusCode`. */
  method Catch(exception: Exception, request: Request, timestamp: string, response: HttpResponse)
    modifies response
    ensures response.body == Some(BuildErrorResponse(exception, request, timestamp))
    ensures response.status == BuildErrorResponse(exception, request, timestamp).statusCode
  {
    var errorResponse := BuildErrorResponse(exception, request, timestamp);
    response.status := errorResponse.statusCode;
    response.body := Some(errorResponse);
  }
}
