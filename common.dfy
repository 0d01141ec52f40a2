/** Values shared by every part of the client: optional values, results carrying
    the exceptions the JavaScript code throws or rejects with, and the transport's
    response, which is only ever inspected through its status. */
module Common {

  datatype Option<+T> = None | Some(value: T) {
    function GetOr(default: T): T {
      match this
      case Some(v) => v
      case None => default
    }
  }

  /** A synchronous throw or an asynchronous rejection, by the kind of error object. */
  datatype Exception =
    | TypeError(message: string)
    | PlainError(message: string)
    /** The error `checkStatus` throws: its message is the status text and the
        response is attached to it. */
    | ResponseError(response: Response)
    /** The TypeError the engine raises on reading `property` from `undefined`
        or `null`; the engine's wording of the message is not modelled. */
    | ReadOfUndefined(property: string)
    /** A rejection passed through from a task or the transport, left abstract. */
    | Opaque(tag: nat)

  datatype Result<+T> = Success(value: T) | Failure(error: Exception) {
    predicate IsFailure() { Failure? }
    function PropagateFailure<U>(): Result<U>
      requires Failure?
    {
      Failure(error)
    }
    function Extract(): T
      requires Success?
    {
      value
    }
  }

  /** What the transport returns for a request: `fetch` itself is not modelled. */
  datatype Response = Response(status: int, statusText: string)

  /** `checkStatus`: a response with a status in 200..299 passes through, any other
      status becomes an error carrying the response. */
  function CheckStatus(response: Response): (r: Result<Response>)
    ensures r.Success? <==> 200 <= response.status < 300
    ensures r.Success? ==> r.value == response
    ensures r.Failure? ==> r.error == ResponseError(response)
  {
    if response.status >= 200 && response.status < 300 then Success(response)
    else Failure(ResponseError(response))
  }
}
