/** The uniform reply every service returns: `dataResponse(httpStatus,
    status, data)`. The `message` and the payload are the two parts of `data`
    that the services fill. */
module Envelope {
  import opened JsValues

  datatype Status = Success | Fail

  datatype Response<+P> = Response(httpStatus: int, status: Status, message: Option<string>, payload: Option<P>)

  /** A reply that carries only a message, as every guard failure does. */
  function Reply<P>(httpStatus: int, status: Status, message: string): Response<P> {
    Response(httpStatus, status, Some(message), None)
  }
}
