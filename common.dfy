/** Values shared by every part of the quotation backend: row identifiers,
    optional values, the two kinds of partial-update field and the errors the
    endpoints answer with. */
module Common {

  /** Primary key of a row. The hosted database hands out uuids; the model
      only needs that they are distinct, so natural numbers stand in. */
  type Id = nat

  /** A value that may be absent (a nullable column, `Optional[...]`). */
  datatype Option<T> = None | Some(value: T) {
    /** The value, or `default` when absent. */
    function GetOr(default: T): T {
      if Some? then value else default
    }
  }

  /** One field of a request body read with `exclude_unset`: `Unset` when
      the client did not send the field at all, `Set(v)` when it did (an
      explicit `null` is `Set(None)` for a nullable field). */
  datatype Field<T> = Unset | Set(value: T) {
    /** The sent value, or `current` when the field was not sent. */
    function Or(current: T): T {
      if Set? then value else current
    }
  }

  /** The HTTP errors the endpoints raise, with their `detail` text. */
  datatype Error =
    | Unauthorized(detail: string)
    | BadRequest(detail: string)
    | NotFound(detail: string)
  {
    /** The HTTP status code sent back with the error. */
    function StatusCode(): int {
      match this
      case Unauthorized(_) => 401
      case BadRequest(_) => 400
      case NotFound(_) => 404
    }
  }

  /** Either the endpoint's answer or the error it raised. */
  datatype Result<T> = Ok(value: T) | Err(error: Error)
}
