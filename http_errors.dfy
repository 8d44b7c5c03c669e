/** The NestJS HTTP exceptions the core raises, with their status codes. */
module HttpErrors {

  /** What `getResponse()` returns: a bare string, or the built-in exceptions' JSON object. */
  datatype HttpResponse = Text(text: string) | Body(message: string)

  /**
   * An HttpException. The built-in subclasses constructed with a message
   * (`new BadRequestException('Invalid siteId')`) carry a `Body` response.
   */
  datatype HttpException = HttpException(status: int, response: HttpResponse)

  const BAD_REQUEST := 400
  const UNAUTHORIZED := 401
  const NOT_FOUND := 404
  const INTERNAL_SERVER_ERROR := 500

  function BadRequest(message: string): HttpException { HttpException(BAD_REQUEST, Body(message)) }
  function Unauthorized(message: string): HttpException { HttpException(UNAUTHORIZED, Body(message)) }
  function NotFound(message: string): HttpException { HttpException(NOT_FOUND, Body(message)) }
  function InternalServerError(message: string): HttpException { HttpException(INTERNAL_SERVER_ERROR, Body(message)) }
}
