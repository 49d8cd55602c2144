/** The protobuf messages exchanged with the link and user services (package
    `pb`). Requests that carry only an id are passed as that id. */
module Pb {

  /** `pb.Empty`, the reply of every successful mutation. */
  datatype Empty = Empty

  datatype Link = Link(
    id: string, title: string, url: string, images: seq<string>,
    tags: seq<string>, userId: string, createdAt: string, updatedAt: string)

  datatype CreateLinkRequest = CreateLinkRequest(
    id: string, title: string, url: string, images: seq<string>,
    tags: seq<string>, userId: string)

  datatype UpdateLinkRequest = UpdateLinkRequest(
    id: string, title: string, url: string, images: seq<string>,
    tags: seq<string>, userId: string)

  datatype User = User(
    id: string, username: string, password: string, createdAt: string,
    updatedAt: string)

  datatype CreateUserRequest = CreateUserRequest(id: string, username: string, password: string)

  datatype UpdateUserRequest = UpdateUserRequest(id: string, username: string, password: string)
}
