/**
 * The records exchanged with the remote user-directory service, and the
 * outcome of one request to it. The HTTP client itself is not modelled: every
 * request a handler makes is represented by an `Outcome` that the caller of
 * the handler supplies, so each handler is verified for every possible reply.
 */
module Api {
  /** A user as the service returns it. */
  datatype User = User(id: int, email: string, firstName: string, lastName: string, avatar: string)

  /** The body of `GET /users?page=N`. */
  datatype PaginatedResponse = PaginatedResponse(
    page: int, perPage: int, total: int, totalPages: int, data: seq<User>)

  /** How one request ended: with the reply's payload, or with a rejected promise. */
  datatype Outcome<+T> = Success(value: T) | Failure
}
