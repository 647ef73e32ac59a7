/**
 * Shared vocabulary of the chat backend: optional values, the outcome of an
 * awaited collaborator call, the `ApiResponse` envelope, the NestJS HTTP
 * exceptions the services throw, and the identifiers used everywhere.
 */
module Common {

  type UserId = string
  type ClientId = string

  /** `client.data.userId`: absent (JavaScript `undefined`) when the socket never authenticated. */
  type UserKey = Option<UserId>

  datatype Option<+T> = None | Some(value: T)

  /** The settled state of an awaited collaborator promise. */
  datatype Reply<+T> = Resolved(value: T) | Rejected

  /** `API_STATUS` of the response envelope. */
  datatype ApiStatus = Success | Failure

  /** `ApiResponse<T>`: `data` is optional (`data?: T`). */
  datatype ApiResponse<+T> = ApiResponse(status: ApiStatus, message: string, data: Option<T>)

  /** The user status column, `'online'` or `'offline'`. */
  datatype UserStatus = Online | Offline

  /** A rejection raised by a repository call (for example a TypeORM `QueryFailedError`). */
  datatype StoreFault = StoreFault(isQueryFailed: bool, message: string)

  /**
   * What a service method can throw. A NestJS exception is built either from
   * a message string or from a `{status, message}` body. `Unwrapped` is a
   * repository rejection that escapes the service as is.
   */
  datatype HttpException =
    | NotFound(message: string)
    | NotFoundBody(status: ApiStatus, message: string)
    | Forbidden(message: string)
    | BadRequest(status: ApiStatus, message: string)
    | Unwrapped(fault: StoreFault)

  /** The settled state of a service call: a value, or a thrown exception. */
  datatype Outcome<+T> = Returned(value: T) | Threw(error: HttpException)

  const CLIENT_ROLE: string := "client"

  /** JavaScript truthiness of an optional string: present and non-empty. */
  predicate Truthy(s: Option<string>)
  {
    s.Some? && s.value != ""
  }

  /** How a key is rendered inside a template string. */
  function KeyText(k: UserKey): string
  {
    match k
    case Some(u) => u
    case None => "undefined"
  }
}
