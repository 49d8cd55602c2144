/** The gateway's `/users` handlers: decode the request, call the user
    service over gRPC, translate a failure, write the response.

    The gRPC client is an oracle: each call is logged, and what it answers is
    fixed by the client's functions of the request. */
module UsersGateway {
  import opened Wrappers
  import Api
  import Pb
  import Grpc
  import Translate
  import Decode
  import Respond

  /** A call the gateway made to the user service. */
  datatype UserCall =
    | ListUsersCall
    | CreateUserCall(create: Pb.CreateUserRequest)
    | DeleteUserCall(id: string)
    | GetUserCall(id: string)
    | UpdateUserCall(update: Pb.UpdateUserRequest)

  /** The user service client: answers are functions of the request, and
      `calls` records every request sent. */
  class UsersClient {
    var calls: seq<UserCall>
    const listUsers: Result<seq<Pb.User>, Grpc.RpcError>
    const createUser: Pb.CreateUserRequest -> Option<Grpc.RpcError>
    const deleteUser: string -> Option<Grpc.RpcError>
    const getUser: string -> Result<Pb.User, Grpc.RpcError>
    const updateUser: Pb.UpdateUserRequest -> Option<Grpc.RpcError>

    constructor (
      listUsers: Result<seq<Pb.User>, Grpc.RpcError>,
      createUser: Pb.CreateUserRequest -> Option<Grpc.RpcError>,
      deleteUser: string -> Option<Grpc.RpcError>,
      getUser: string -> Result<Pb.User, Grpc.RpcError>,
      updateUser: Pb.UpdateUserRequest -> Option<Grpc.RpcError>)
      ensures calls == []
      ensures this.listUsers == listUsers && this.createUser == createUser
      ensures this.deleteUser == deleteUser && this.getUser == getUser
      ensures this.updateUser == updateUser
    {
      calls := [];
      this.listUsers, this.createUser, this.deleteUser := listUsers, createUser, deleteUser;
      this.getUser, this.updateUser := getUser, updateUser;
    }

    method ListUsers() returns (res: Result<seq<Pb.User>, Grpc.RpcError>)
      modifies this
      ensures calls == old(calls) + [ListUsersCall] && res == listUsers
    {
      calls := calls + [ListUsersCall];
      res := listUsers;
    }

    method CreateUser(req: Pb.CreateUserRequest) returns (err: Option<Grpc.RpcError>)
      modifies this
      ensures calls == old(calls) + [CreateUserCall(req)] && err == createUser(req)
    {
      calls := calls + [CreateUserCall(req)];
      err := createUser(req);
    }

    method DeleteUser(id: string) returns (err: Option<Grpc.RpcError>)
      modifies this
      ensures calls == old(calls) + [DeleteUserCall(id)] && err == deleteUser(id)
    {
      calls := calls + [DeleteUserCall(id)];
      err := deleteUser(id);
    }

    method GetUser(id: string) returns (res: Result<Pb.User, Grpc.RpcError>)
      modifies this
      ensures calls == old(calls) + [GetUserCall(id)] && res == getUser(id)
    {
      calls := calls + [GetUserCall(id)];
      res := getUser(id);
    }

    method UpdateUser(req: Pb.UpdateUserRequest) returns (err: Option<Grpc.RpcError>)
      modifies this
      ensures calls == old(calls) + [UpdateUserCall(req)] && err == updateUser(req)
    {
      calls := calls + [UpdateUserCall(req)];
      err := updateUser(req);
    }
  }

  /** The HTTP representation of a user: every field of the service's user,
      the password included. */
  function ApiUser(u: Pb.User): Api.User {
    Api.User(
      createdAt := u.createdAt, id := u.id, password := u.password,
      updatedAt := u.updatedAt, username := u.username)
  }

  /** The element-wise conversion of a list of users, in order. */
  function ApiUsers(users: seq<Pb.User>): seq<Api.User> {
    seq(|users|, i requires 0 <= i < |users| => ApiUser(users[i]))
  }

  /** The user-list loop of GetUsers. */
  method ConvertUsers(users: seq<Pb.User>) returns (list: seq<Api.User>)
    ensures |list| == |users|
    ensures forall i :: 0 <= i < |users| ==> list[i] == ApiUser(users[i])
  {
    list := [];
    for i := 0 to |users|
      invariant |list| == i
      invariant forall k :: 0 <= k < i ==> list[k] == ApiUser(users[k])
    {
      list := list + [ApiUser(users[i])];
    }
  }

  function CreateUserRequestOf(u: Api.UserCreate): Pb.CreateUserRequest {
    Pb.CreateUserRequest(id := u.id, username := u.username, password := u.password)
  }

  function UpdateUserRequestOf(u: Api.UserCreate): Pb.UpdateUserRequest {
    Pb.UpdateUserRequest(id := u.id, username := u.username, password := u.password)
  }

  /** The conversion loses nothing: distinct users stay distinct, so the
      password and both timestamps reach the client. */
  lemma ApiUserIsLossless(a: Pb.User, b: Pb.User)
    ensures ApiUser(a) == ApiUser(b) <==> a == b
    ensures var u := ApiUser(a);
      && u.id == a.id && u.username == a.username && u.password == a.password
      && u.createdAt == a.createdAt && u.updatedAt == a.updatedAt
  {
  }

  /** The request bodies are forwarded field for field. */
  lemma UserRequestsAreLossless(a: Api.UserCreate, b: Api.UserCreate)
    ensures CreateUserRequestOf(a) == CreateUserRequestOf(b) <==> a == b
    ensures UpdateUserRequestOf(a) == UpdateUserRequestOf(b) <==> a == b
    ensures var c := CreateUserRequestOf(a);
      c.id == a.id && c.username == a.username && c.password == a.password
    ensures var u := UpdateUserRequestOf(a);
      u.id == a.id && u.username == a.username && u.password == a.password
  {
  }

  class UsersHandler {
    const client: UsersClient

    constructor (client: UsersClient)
      ensures this.client == client
    {
      this.client := client;
    }

    /** GET /users: the service's list, converted in order, with 200. */
    method GetUsers(w: Respond.ResponseWriter, marshals: bool)
      modifies w, client
      ensures client.calls == old(client.calls) + [ListUsersCall]
      ensures w.State() == match client.listUsers
        case Err(e) => old(w.State()).GRPCErrorWritten(e, marshals)
        case Ok(users) => old(w.State()).Marshalled(Translate.StatusOK, Api.UserListBody(ApiUsers(users)), marshals)
    {
      var resp := client.ListUsers();
      if resp.Err? {
        Respond.HandleGRPCError(w, resp.error, marshals);
        return;
      }
      var userList := ConvertUsers(resp.value);
      assert userList == ApiUsers(resp.value);
      Respond.MarshalResponse(w, Translate.StatusOK, Api.UserListBody(userList), marshals);
    }

    /** POST /users: a body that does not decode is answered without calling
        the service; otherwise CreateUser, then 201 with no body. */
    method PostUsers(w: Respond.ResponseWriter, r: Decode.Request, dec: Decode.Decoding<Api.UserCreate>, marshals: bool)
      modifies w, r, client
      ensures var u := Decode.UnmarshalOutcome(r.contentType, dec);
        if u.err.Some? then
          && client.calls == old(client.calls)
          && w.State() == old(w.State()).DecodeErrorWritten(u.status, u.err.value, marshals)
        else
          var req := CreateUserRequestOf(dec.result.value);
          && client.calls == old(client.calls) + [CreateUserCall(req)]
          && w.State() == match client.createUser(req)
               case Some(e) => old(w.State()).GRPCErrorWritten(e, marshals)
               case None => old(w.State()).WithStatus(Translate.StatusCreated)
      ensures r.bodyLimit == if Decode.IsJsonContentType(r.contentType) then Some(Decode.MaxBodyBytes) else old(r.bodyLimit)
      ensures r.bodyClosed == (Decode.IsJsonContentType(r.contentType) || old(r.bodyClosed))
    {
      var code, err := Decode.Unmarshal(r, dec);
      if err.Some? {
        Respond.MarshalResponse(w, code, Api.ErrorBody(Api.Error(Translate.ConvertHTTPToErrorCode(code), err)), marshals);
        return;
      }
      var u := dec.result.value;
      var rpcErr := client.CreateUser(CreateUserRequestOf(u));
      if rpcErr.Some? {
        Respond.HandleGRPCError(w, rpcErr.value, marshals);
        return;
      }
      w.WriteHeader(Translate.StatusCreated);
    }

    /** DELETE /users/{id}: the path id goes to DeleteUser as is; 204. */
    method DeleteUsersId(w: Respond.ResponseWriter, id: string, marshals: bool)
      modifies w, client
      ensures client.calls == old(client.calls) + [DeleteUserCall(id)]
      ensures w.State() == match client.deleteUser(id)
        case Some(e) => old(w.State()).GRPCErrorWritten(e, marshals)
        case None => old(w.State()).WithStatus(Translate.StatusNoContent)
    {
      var err := client.DeleteUser(id);
      if err.Some? {
        Respond.HandleGRPCError(w, err.value, marshals);
        return;
      }
      w.WriteHeader(Translate.StatusNoContent);
    }

    /** GET /users/{id}: the path id goes to GetUser as is; 200 with the user. */
    method GetUsersId(w: Respond.ResponseWriter, id: string, marshals: bool)
      modifies w, client
      ensures client.calls == old(client.calls) + [GetUserCall(id)]
      ensures w.State() == match client.getUser(id)
        case Err(e) => old(w.State()).GRPCErrorWritten(e, marshals)
        case Ok(user) => old(w.State()).Marshalled(Translate.StatusOK, Api.UserBody(ApiUser(user)), marshals)
    {
      var u := client.GetUser(id);
      if u.Err? {
        Respond.HandleGRPCError(w, u.error, marshals);
        return;
      }
      Respond.MarshalResponse(w, Translate.StatusOK, Api.UserBody(ApiUser(u.value)), marshals);
    }

    /** PUT /users/{id}: like POST, but UpdateUser and 204. The user updated is
        the one the body names; the path id is not used. */
    method PutUsersId(w: Respond.ResponseWriter, r: Decode.Request, id: string, dec: Decode.Decoding<Api.UserCreate>, marshals: bool)
      modifies w, r, client
      ensures var u := Decode.UnmarshalOutcome(r.contentType, dec);
        if u.err.Some? then
          && client.calls == old(client.calls)
          && w.State() == old(w.State()).DecodeErrorWritten(u.status, u.err.value, marshals)
        else
          var req := UpdateUserRequestOf(dec.result.value);
          && req.id == dec.result.value.id
          && client.calls == old(client.calls) + [UpdateUserCall(req)]
          && w.State() == match client.updateUser(req)
               case Some(e) => old(w.State()).GRPCErrorWritten(e, marshals)
               case None => old(w.State()).WithStatus(Translate.StatusNoContent)
      ensures r.bodyLimit == if Decode.IsJsonContentType(r.contentType) then Some(Decode.MaxBodyBytes) else old(r.bodyLimit)
      ensures r.bodyClosed == (Decode.IsJsonContentType(r.contentType) || old(r.bodyClosed))
    {
      var code, err := Decode.Unmarshal(r, dec);
      if err.Some? {
        Respond.MarshalResponse(w, code, Api.ErrorBody(Api.Error(Translate.ConvertHTTPToErrorCode(code), err)), marshals);
        return;
      }
      var u := dec.result.value;
      var rpcErr := client.UpdateUser(UpdateUserRequestOf(u));
      if rpcErr.Some? {
        Respond.HandleGRPCError(w, rpcErr.value, marshals);
        return;
      }
      w.WriteHeader(Translate.StatusNoContent);
    }
  }
}
