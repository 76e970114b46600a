/**
 * What the backend's services and routes share: the exceptions a service
 * raises instead of returning, and JSON columns that may hold either the
 * JSON text or the parsed value.
 */
module Backend {
  import opened Wrappers

  /** `NotFoundException`, `ForbiddenException` and `InternalServerErrorException` with their messages. */
  datatype Exception =
    | NotFound(message: string)
    | Forbidden(message: string)
    | InternalError(message: string)

  /**
   * A JSON column: either text to be given to `JSON.parse`, whose outcome is
   * the parsed value or the parser's error message, or an already parsed value.
   */
  datatype JsonField<T> = JsonString(parsed: Result<T, string>) | JsonValue(value: T)

  /** `typeof f === 'string' ? JSON.parse(f) : f`, a parse error being the error's message. */
  function Decode<T>(f: JsonField<T>): (r: Result<T, string>)
    ensures f.JsonValue? ==> r == Ok(f.value)
    ensures f.JsonString? ==> r == f.parsed
  {
    match f
    case JsonString(parsed) => parsed
    case JsonValue(v) => Ok(v)
  }
}
