/** The HTTP status codes the route handlers answer with, and a reply that is either a failure status or a 200 body. */
module Http {

  const Ok: int := 200
  const BadRequest: int := 400
  const Forbidden: int := 403
  const NotFound: int := 404
  const ServerError: int := 500

  datatype Reply<T> = Fail(status: int) | Success(body: T) {

    function Status(): int {
      if Success? then Ok else status
    }
  }
}
