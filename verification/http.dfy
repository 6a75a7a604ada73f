/** What a request handler sends back, and the request checks several handlers share. */
module Http {
  import opened Wrappers
  import opened Js

  /** An HTTP response: status, the `message` of its JSON body, and the record or list it carries. */
  datatype Response<T> = Response(status: int, message: string, payload: Option<T>)

  const InternalError := "Internal server error"

  /** A response that carries no record. */
  function Reply<T>(status: int, message: string): (r: Response<T>)
    ensures r.status == status && r.message == message && r.payload.None?
  {
    Response(status, message, None)
  }

  /**
   * The guard `!id || Array.isArray(id)` on a route or query parameter:
   * absent, empty or repeated parameters are refused.
   */
  predicate MissingParam(v: Value)
  {
    !Truthy(v) || v.Arr?
  }
}
