/** Shared vocabulary of the handlers: optional values, failures and replies. */
module Common {

  /** Identifiers are the string primary keys (uuid4 text) of every table. */
  type Id = string

  /** Time is modelled as integer seconds. */
  type Timestamp = int

  datatype Option<T> = None | Some(value: T) {
    /** The value, or `default` when absent (Python's `dict.get(key, default)`). */
    function GetOr(default: T): T {
      if Some? then value else default
    }
  }

  /** How a handler ends when it does not succeed, with its HTTP status. */
  datatype Error =
    | BadRequest        // 400: the serializer or the handler rejected the input
    | NotAuthenticated  // 401: a permission class refused an anonymous caller
    | Forbidden         // 403: a permission class refused an authenticated caller
    | NotFound          // 404: get_object / get_object_or_404 found no row
    | ServerError       // 500: an exception escaped the handler
  {
    function Status(): int {
      match this
      case BadRequest => 400
      case NotAuthenticated => 401
      case Forbidden => 403
      case NotFound => 404
      case ServerError => 500
    }
  }

  datatype Result<T> = Ok(value: T) | Err(error: Error)

  /** A successful reply: its status code and its `detail` message. */
  datatype Reply = Reply(status: int, detail: string)

  /** Python truthiness of a request parameter: a missing value and "" are both false. */
  predicate Given(o: Option<string>) {
    o.Some? && o.value != ""
  }
}
