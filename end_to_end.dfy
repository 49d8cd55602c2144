/** What a client of the gateway sees when the user service fails: the
    service's status travels back as a gRPC status error and the gateway
    writes it with handleGRPCError. */
module EndToEnd {
  import opened Wrappers
  import Api
  import Grpc
  import Translate
  import Respond
  import GoErrors
  import UserGrpc
  import Pb

  /** GET /users/{id} when GetUser fails: an id that is not a UUID is a 400
      with a BadRequest envelope; a plain repository error is a 500 with an
      InternalServerError envelope; 404 needs an error that matches a fresh
      "not found" error. */
  lemma GetUserFailureOnTheWire(id: string, repo: UserGrpc.Repository, foreign: UserGrpc.Foreign)
    ensures var s := UserGrpc.GetUser(id, repo, foreign);
      s.reply.Err? ==>
        var r := Respond.Unwritten.GRPCErrorWritten(Grpc.StatusError(s.reply.error), true);
        && r.status.value in {400, 404, 500}
        && (foreign.uuidParse(id).Err? ==>
              r.status == Some(400) && r.body == [Api.ErrorBody(Api.Error(Api.BadRequest, None))])
        && (foreign.uuidParse(id).Ok? && repo.findByID(foreign.uuidParse(id).value).error.Plain? ==>
              r.status == Some(500) && r.body == [Api.ErrorBody(Api.Error(Api.InternalServerError, None))])
        && (r.status == Some(404) ==> GoErrors.IsFresh(repo.findByID(foreign.uuidParse(id).value).error, "not found"))
  {
  }

  /** POST /users when CreateUser fails: 400 for a bad id, 409 only for an
      error that matches a fresh "conflict" error, 500 otherwise. */
  lemma CreateUserFailureOnTheWire(id: string, username: string, password: string,
                                   repo: UserGrpc.Repository, foreign: UserGrpc.Foreign)
    ensures var s := UserGrpc.CreateUser(Pb.CreateUserRequest(id, username, password), repo, foreign);
      s.reply.Err? ==>
        var r := Respond.Unwritten.GRPCErrorWritten(Grpc.StatusError(s.reply.error), true);
        && r.status.value in {400, 409, 500}
        && (r.status == Some(409) <==> s.reply.error.code == Grpc.AlreadyExists)
        && (r.status == Some(400) <==> foreign.uuidParse(id).Err?)
  {
  }
}
