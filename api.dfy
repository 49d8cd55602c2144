/** The HTTP/JSON side of the wire (package `apiv1`): the application error
    code, the error envelope, the resources and the request bodies. */
module Api {
  import opened Wrappers

  /** `apiv1.ErrorCode`: the client-facing error taxonomy. */
  datatype ErrorCode = BadRequest | Conflict | NotFound | InternalServerError

  /** `apiv1.Error`: the envelope `{"code": ..., "message": ...}`; a `None`
      message is written as JSON null. */
  datatype Error = Error(code: ErrorCode, message: Option<string>)

  datatype Link = Link(
    createdAt: string, id: string, images: seq<string>, tags: seq<string>,
    title: string, updatedAt: string, url: string, userId: string)

  /** Body of POST /links and PUT /links/{id}. */
  datatype LinkCreate = LinkCreate(
    id: string, images: seq<string>, tags: seq<string>, title: string,
    url: string, userId: string)

  datatype User = User(
    createdAt: string, id: string, password: string, updatedAt: string,
    username: string)

  /** Body of POST /users and PUT /users/{id}. */
  datatype UserCreate = UserCreate(id: string, password: string, username: string)

  /** A value handed to the JSON encoder as a response body. */
  datatype Payload =
    | ErrorBody(error: Error)
    | LinkBody(link: Link)
    | LinkListBody(links: seq<Link>)
    | UserBody(user: User)
    | UserListBody(users: seq<User>)
}
