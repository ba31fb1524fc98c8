/** Values shared by every hook and panel: optional values, the outcome of a
    backend request, the outcome of a hook operation, and on-screen notices. */
module Base {

  datatype Option<T> = None | Some(value: T)

  /** Outcome of one request to the hosted table store: the value it returns
      (a server-assigned id, a row, a list of rows) or the error message it
      rejects the request with. */
  datatype Reply<T> = Ok(value: T) | Err(message: string)

  /** Outcome of a request whose result carries no row (delete, bulk insert). */
  datatype Ack = Accepted | Rejected(message: string)

  /** What an asynchronous hook operation resolves to: a value, or the error
      message of the exception it throws. */
  datatype Result<T> = Success(value: T) | Failure(error: string)

  /** A toast shown by a panel; `Quiet` when the handler shows none. */
  datatype Toast = Quiet | ToastSuccess(text: string) | ToastError(text: string)

  /** The signed-in user, as the id the hooks scope every query by. */
  type User = Option<string>

  /** Message of the exception every mutating hook operation throws without a user. */
  const NotAuthenticated: string := "User not authenticated"

  /** One condition of a table query: `.eq`, `.gte` or `.lte` on a column. */
  datatype Condition =
    | Eq(column: string, value: string)
    | AtLeast(column: string, value: string)
    | AtMost(column: string, value: string)

  /** The condition by which every query is limited to the user's own rows. */
  function OwnerScope(userId: string): seq<Condition>
  {
    [Eq("user_id", userId)]
  }
}
