/** The outcome of a request handler: a JSON body sent with status 200, or
    one of the error statuses the handlers send. */
module Http {

  datatype Reply<+T> = Ok(value: T) | BadRequest | Unauthorized | Forbidden | NotFound | ServerError
  {
    /** The HTTP status code the handler responds with. */
    function Status(): (code: int)
      ensures code == 200 <==> Ok?
      ensures 200 <= code < 600
    {
      match this
      case Ok(_) => 200
      case BadRequest => 400
      case Unauthorized => 401
      case Forbidden => 403
      case NotFound => 404
      case ServerError => 500
    }

    /** The same error response, for a handler whose success value has another type. */
    function PropagateFailure<U>(): (r: Reply<U>)
      requires !Ok?
      ensures !r.Ok? && r.Status() == Status()
    {
      match this
      case BadRequest => BadRequest
      case Unauthorized => Unauthorized
      case Forbidden => Forbidden
      case NotFound => NotFound
      case ServerError => ServerError
    }
  }
}
