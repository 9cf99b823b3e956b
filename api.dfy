/** The JSON shapes that the backend and the browser client exchange. */
module Api {
  import opened Wrappers

  type UserId = string
  type TodoId = string

  /** The two statuses the client offers; the server stores whatever string it is given. */
  const Pending: string := "Pending"
  const Completed: string := "Completed"

  /** A stored todo record: the owner is the `user` reference of the schema. */
  datatype Todo = Todo(
    title: string,
    description: Option<string>,
    status: string,
    owner: UserId,
    createdAt: int)

  /** A todo as it travels over the wire, with its `_id`. */
  datatype Entry = Entry(id: TodoId, todo: Todo)

  /** The user object a response may carry: never the password. */
  datatype PublicUser = PublicUser(id: UserId, email: string)

  /** The body of a successful login or refresh. */
  datatype Session = Session(token: string, user: PublicUser)

  /** An HTTP reply: a status code with a body, or a status code with an error message. */
  datatype Response<+T> = Success(code: int, body: T) | Failure(code: int, message: string)

  const OK: int := 200
  const Created: int := 201
  const BadRequest: int := 400
  const Unauthorized: int := 401
  const Forbidden: int := 403
  const NotFound: int := 404
}
