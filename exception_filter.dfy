/**
 * The catch-all exception filter: it turns whatever a handler threw into
 * the status, JSON body and log classification of the error response.
 * The response write and the log lines themselves are not modelled; the
 * filter's decision is returned as a value.
 */
module ExceptionFilter {
  import opened Results
  import opened HttpErrors

  /**
   * What a handler can throw: an HttpException, another Error, or a value
   * that is not an Error at all (which the filter wraps in a new Error,
   * whose stack trace enters as `freshStack`).
   */
  datatype Thrown =
    | Http(exception: HttpException, stack: string)
    | Error(stack: string)
    | NonError

  /** The JSON body: `statusCode`, `message`, and `stack` outside production. */
  datatype ErrorBody = ErrorBody(statusCode: int, message: string, stack: Option<string>)

  /** The response the filter sends, and whether it logs the client-error warning. */
  datatype FilterResponse = FilterResponse(status: int, body: ErrorBody, clientWarning: bool)

  const INTERNAL_ERROR_MESSAGE := "Internal server error"
  const REQUEST_FAILED := "Request failed"
  const PRODUCTION := "production"

  /** `exception instanceof Error ? exception : new Error(String(exception))`, by its stack. */
  function StackOf(thrown: Thrown, freshStack: string): string {
    match thrown
    case Http(_, stack) => stack
    case Error(stack) => stack
    case NonError => freshStack
  }

  predicate IsClientError(status: int) {
    BAD_REQUEST <= status < INTERNAL_SERVER_ERROR
  }

  /** `catch`. */
  function Catch(thrown: Thrown, nodeEnv: Option<string>, freshStack: string): (r: FilterResponse)
    ensures r.body.statusCode == r.status
    ensures thrown.Http? ==> r.status == thrown.exception.status
    ensures !thrown.Http? ==> r.status == INTERNAL_SERVER_ERROR && r.body.message == INTERNAL_ERROR_MESSAGE
    ensures thrown.Http? && thrown.exception.response.Text? ==> r.body.message == thrown.exception.response.text
    ensures thrown.Http? && thrown.exception.response.Body? ==> r.body.message == REQUEST_FAILED
    ensures r.body.stack.Some? <==> nodeEnv != Some(PRODUCTION)
    ensures r.body.stack.Some? ==> r.body.stack.value == StackOf(thrown, freshStack)
    ensures r.clientWarning <==> 400 <= r.status < 500
  {
    var status := if thrown.Http? then thrown.exception.status else INTERNAL_SERVER_ERROR;
    var message :=
      if !thrown.Http? then INTERNAL_ERROR_MESSAGE
      else if thrown.exception.response.Text? then thrown.exception.response.text
      else REQUEST_FAILED;
    var stack := if nodeEnv != Some(PRODUCTION) then Some(StackOf(thrown, freshStack)) else None;
    FilterResponse(status, ErrorBody(status, message, stack), IsClientError(status))
  }

  /**
   * The built-in exceptions the core raises (BadRequest, Unauthorized,
   * NotFound, InternalServerError with a message) carry an object response,
   * so clients see their status with the generic message.
   */
  lemma BuiltInMessagesHidden(message: string, stack: string, nodeEnv: Option<string>, freshStack: string)
    ensures Catch(Http(BadRequest(message), stack), nodeEnv, freshStack).body.message == REQUEST_FAILED
    ensures Catch(Http(BadRequest(message), stack), nodeEnv, freshStack).status == 400
    ensures Catch(Http(Unauthorized(message), stack), nodeEnv, freshStack).status == 401
    ensures Catch(Http(NotFound(message), stack), nodeEnv, freshStack).status == 404
    ensures Catch(Http(InternalServerError(message), stack), nodeEnv, freshStack).status == 500
    ensures Catch(Http(InternalServerError(message), stack), nodeEnv, freshStack).body.message == REQUEST_FAILED
  {
  }

  /** Only the 4xx statuses are warned about: a non-HTTP failure never is. */
  lemma ServerErrorsNotWarned(thrown: Thrown, nodeEnv: Option<string>, freshStack: string)
    requires !thrown.Http? || thrown.exception.status >= 500 || thrown.exception.status < 400
    ensures !Catch(thrown, nodeEnv, freshStack).clientWarning
  {
  }

  /** The body sent depends on the environment only through its `stack` field. */
  lemma EnvironmentOnlyAffectsStack(thrown: Thrown, env1: Option<string>, env2: Option<string>, freshStack: string)
    ensures Catch(thrown, env1, freshStack).status == Catch(thrown, env2, freshStack).status
    ensures Catch(thrown, env1, freshStack).body.message == Catch(thrown, env2, freshStack).body.message
    ensures Catch(thrown, Some(PRODUCTION), freshStack).body.stack == None
  {
  }
}
