/** The HTTP client the users page calls, seen from the page: which request a
    handler issues, and whether it came back with a result or failed. The
    transport itself (URLs, status codes, parsing, logging and rethrowing)
    is not modelled; a failure of any kind is one `Failure`. */
module UsersApi {

  /** The body of a create or update request. */
  datatype UserData = UserData(name: string, email: string)

  /** The three mutating calls the users page makes. */
  datatype Request =
    | CreateUser(data: UserData)
    | UpdateUser(id: int, data: UserData)
    | DeleteUser(id: int)

  /** What a call resolves to: the parsed response body, or a rejection. */
  datatype Outcome<T> = Success(value: T) | Failure

  /** The response of a call whose body the page ignores. */
  type Done = Outcome<()>
}
