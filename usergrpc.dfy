/** The user service's gRPC handlers: validate the id, call the repository,
    classify the outcome as a gRPC status.

    The repository, `uuid.Parse`, `UUID.String` and RFC 3339 time formatting
    are not visible here: the repository is a value of oracle functions, the
    others are the functions of a `Foreign` value. A handler's result records
    the repository calls it made. */
module UserGrpc {
  import opened Wrappers
  import Grpc
  import Pb
  import GoErrors

  /** The bytes of a UUID, and an instant. */
  type UUID = seq<bv8>
  type Time = int

  /** `database.User`, a stored user. */
  datatype User = User(id: UUID, username: string, password: string, createdAt: Time, updatedAt: Time)

  datatype CreateUserReq = CreateUserReq(id: UUID, username: string, password: string)

  datatype RepoCall =
    | Create(create: CreateUserReq)
    | FindByID(id: UUID)
    | DeleteByUserID(id: UUID)
    | FindAll

  /** What each repository operation answers. */
  datatype Repository = Repository(
    create: CreateUserReq -> Option<GoErrors.Error>,
    findByID: UUID -> Result<User, GoErrors.Error>,
    deleteByUserID: UUID -> Option<GoErrors.Error>,
    findAll: Result<seq<User>, GoErrors.Error>)

  datatype Foreign = Foreign(
    uuidParse: string -> Result<UUID, string>,
    uuidString: UUID -> string,
    formatRFC3339: Time -> string)

  /** A handler's reply and the repository calls it made, in order. */
  datatype Served<T> = Served(reply: Result<T, Grpc.Status>, calls: seq<RepoCall>)

  /** The protobuf form of a stored user, the password included. */
  function PbUser(u: User, foreign: Foreign): Pb.User {
    Pb.User(
      id := foreign.uuidString(u.id), username := u.username, password := u.password,
      createdAt := foreign.formatRFC3339(u.createdAt), updatedAt := foreign.formatRFC3339(u.updatedAt))
  }

  /** CreateUser: an id that is not a UUID is InvalidArgument before the
      repository is touched; a repository error is AlreadyExists only if it
      matches a fresh "conflict" error, else Internal. */
  function CreateUser(req: Pb.CreateUserRequest, repo: Repository, foreign: Foreign): (s: Served<Pb.Empty>)
    ensures s.reply.Err? ==> s.reply.error.code in {Grpc.InvalidArgument, Grpc.AlreadyExists, Grpc.Internal}
    ensures s.calls == [] <==> foreign.uuidParse(req.id).Err?
    ensures foreign.uuidParse(req.id).Err? ==>
              s.reply == Err(Grpc.Status(Grpc.InvalidArgument, foreign.uuidParse(req.id).error))
    ensures s.reply.Err? && s.reply.error.code == Grpc.InvalidArgument <==> foreign.uuidParse(req.id).Err?
    ensures s.calls != [] ==>
              s.calls == [Create(CreateUserReq(foreign.uuidParse(req.id).value, req.username, req.password))]
    ensures s.reply.Ok? <==> s.calls != [] && repo.create(s.calls[0].create).None?
    ensures s.reply.Err? && s.reply.error.code == Grpc.AlreadyExists <==>
              && s.calls != []
              && repo.create(s.calls[0].create).Some?
              && GoErrors.IsFresh(repo.create(s.calls[0].create).value, "conflict")
    ensures s.reply.Err? && s.calls != [] ==> s.reply.error.message == repo.create(s.calls[0].create).value.text
  {
    match foreign.uuidParse(req.id)
    case Err(msg) => Served(Err(Grpc.Status(Grpc.InvalidArgument, msg)), [])
    case Ok(parsedUUID) =>
      var dbReq := CreateUserReq(parsedUUID, req.username, req.password);
      match repo.create(dbReq)
      case None => Served(Ok(Pb.Empty), [Create(dbReq)])
      case Some(err) =>
        if GoErrors.IsFresh(err, "conflict") then Served(Err(Grpc.Status(Grpc.AlreadyExists, err.text)), [Create(dbReq)])
        else Served(Err(Grpc.Status(Grpc.Internal, err.text)), [Create(dbReq)])
  }

  /** GetUser: InvalidArgument for a bad id without a repository call;
      NotFound only if the error matches a fresh "not found" error, else
      Internal; on success the stored user in protobuf form. */
  function GetUser(id: string, repo: Repository, foreign: Foreign): (s: Served<Pb.User>)
    ensures s.reply.Err? ==> s.reply.error.code in {Grpc.InvalidArgument, Grpc.NotFound, Grpc.Internal}
    ensures s.calls == [] <==> foreign.uuidParse(id).Err?
    ensures foreign.uuidParse(id).Err? ==>
              s.reply == Err(Grpc.Status(Grpc.InvalidArgument, foreign.uuidParse(id).error))
    ensures s.reply.Err? && s.reply.error.code == Grpc.InvalidArgument <==> foreign.uuidParse(id).Err?
    ensures s.calls != [] ==> s.calls == [FindByID(foreign.uuidParse(id).value)]
    ensures s.reply.Ok? <==> s.calls != [] && repo.findByID(s.calls[0].id).Ok?
    ensures s.reply.Ok? ==> s.reply.value == PbUser(repo.findByID(s.calls[0].id).value, foreign)
    ensures s.reply.Err? && s.reply.error.code == Grpc.NotFound <==>
              && s.calls != []
              && repo.findByID(s.calls[0].id).Err?
              && GoErrors.IsFresh(repo.findByID(s.calls[0].id).error, "not found")
    ensures s.reply.Err? && s.calls != [] ==> s.reply.error.message == repo.findByID(s.calls[0].id).error.text
  {
    match foreign.uuidParse(id)
    case Err(msg) => Served(Err(Grpc.Status(Grpc.InvalidArgument, msg)), [])
    case Ok(parsedUUID) =>
      match repo.findByID(parsedUUID)
      case Err(err) =>
        if GoErrors.IsFresh(err, "not found") then Served(Err(Grpc.Status(Grpc.NotFound, err.text)), [FindByID(parsedUUID)])
        else Served(Err(Grpc.Status(Grpc.Internal, err.text)), [FindByID(parsedUUID)])
      case Ok(user) => Served(Ok(PbUser(user, foreign)), [FindByID(parsedUUID)])
  }

  /** UpdateUser: InvalidArgument for a bad id without a repository call;
      otherwise the repository's Create (there is no update call) with the
      request's fields, and every repository error is Internal. */
  function UpdateUser(req: Pb.UpdateUserRequest, repo: Repository, foreign: Foreign): (s: Served<Pb.Empty>)
    ensures s.reply.Err? ==> s.reply.error.code in {Grpc.InvalidArgument, Grpc.Internal}
    ensures s.calls == [] <==> foreign.uuidParse(req.id).Err?
    ensures foreign.uuidParse(req.id).Err? ==>
              s.reply == Err(Grpc.Status(Grpc.InvalidArgument, foreign.uuidParse(req.id).error))
    ensures s.reply.Err? && s.reply.error.code == Grpc.InvalidArgument <==> foreign.uuidParse(req.id).Err?
    ensures s.calls != [] ==>
              s.calls == [Create(CreateUserReq(foreign.uuidParse(req.id).value, req.username, req.password))]
    ensures s.reply.Ok? <==> s.calls != [] && repo.create(s.calls[0].create).None?
    ensures s.reply.Err? && s.calls != [] ==> s.reply.error.message == repo.create(s.calls[0].create).value.text
  {
    match foreign.uuidParse(req.id)
    case Err(msg) => Served(Err(Grpc.Status(Grpc.InvalidArgument, msg)), [])
    case Ok(parsedUUID) =>
      var dbReq := CreateUserReq(parsedUUID, req.username, req.password);
      match repo.create(dbReq)
      case None => Served(Ok(Pb.Empty), [Create(dbReq)])
      case Some(err) => Served(Err(Grpc.Status(Grpc.Internal, err.text)), [Create(dbReq)])
  }

  /** DeleteUser: InvalidArgument for a bad id without a repository call;
      every repository error is Internal. */
  function DeleteUser(id: string, repo: Repository, foreign: Foreign): (s: Served<Pb.Empty>)
    ensures s.reply.Err? ==> s.reply.error.code in {Grpc.InvalidArgument, Grpc.Internal}
    ensures s.calls == [] <==> foreign.uuidParse(id).Err?
    ensures foreign.uuidParse(id).Err? ==>
              s.reply == Err(Grpc.Status(Grpc.InvalidArgument, foreign.uuidParse(id).error))
    ensures s.reply.Err? && s.reply.error.code == Grpc.InvalidArgument <==> foreign.uuidParse(id).Err?
    ensures s.calls != [] ==> s.calls == [DeleteByUserID(foreign.uuidParse(id).value)]
    ensures s.reply.Ok? <==> s.calls != [] && repo.deleteByUserID(s.calls[0].id).None?
    ensures s.reply.Err? && s.calls != [] ==> s.reply.error.message == repo.deleteByUserID(s.calls[0].id).value.text
  {
    match foreign.uuidParse(id)
    case Err(msg) => Served(Err(Grpc.Status(Grpc.InvalidArgument, msg)), [])
    case Ok(parsedUUID) =>
      match repo.deleteByUserID(parsedUUID)
      case None => Served(Ok(Pb.Empty), [DeleteByUserID(parsedUUID)])
      case Some(err) => Served(Err(Grpc.Status(Grpc.Internal, err.text)), [DeleteByUserID(parsedUUID)])
  }

  /** ListUsers: every stored user in protobuf form, in order, passwords
      included; any repository error is Internal. */
  method ListUsers(repo: Repository, foreign: Foreign) returns (s: Served<seq<Pb.User>>)
    ensures s.calls == [FindAll]
    ensures repo.findAll.Err? ==> s.reply == Err(Grpc.Status(Grpc.Internal, repo.findAll.error.text))
    ensures repo.findAll.Ok? ==>
              && s.reply.Ok?
              && |s.reply.value| == |repo.findAll.value|
              && forall i :: 0 <= i < |repo.findAll.value| ==> s.reply.value[i] == PbUser(repo.findAll.value[i], foreign)
  {
    var list := repo.findAll;
    if list.Err? {
      return Served(Err(Grpc.Status(Grpc.Internal, list.error.text)), [FindAll]);
    }
    var response := [];
    for i := 0 to |list.value|
      invariant |response| == i
      invariant forall k :: 0 <= k < i ==> response[k] == PbUser(list.value[k], foreign)
    {
      response := response + [PbUser(list.value[i], foreign)];
    }
    s := Served(Ok(response), [FindAll]);
  }

  /** A stored user reaches the client field for field, the password
      included: the id in its string form, the timestamps in RFC 3339. */
  lemma UserConversionKeepsFields(u: User, foreign: Foreign)
    ensures var p := PbUser(u, foreign);
      && p.id == foreign.uuidString(u.id) && p.username == u.username && p.password == u.password
      && p.createdAt == foreign.formatRFC3339(u.createdAt) && p.updatedAt == foreign.formatRFC3339(u.updatedAt)
  {
  }

  /** UpdateUser sends the repository exactly the call CreateUser sends for
      the same fields, but reports a conflict as Internal where CreateUser
      reports AlreadyExists. */
  lemma UpdateUserIsCreateWithoutConflict(id: string, username: string, password: string, repo: Repository, foreign: Foreign)
    ensures var c := CreateUser(Pb.CreateUserRequest(id, username, password), repo, foreign);
      var u := UpdateUser(Pb.UpdateUserRequest(id, username, password), repo, foreign);
      && u.calls == c.calls
      && (u.reply.Ok? <==> c.reply.Ok?)
      && (c.reply.Err? && c.reply.error.code == Grpc.AlreadyExists ==> u.reply == Err(Grpc.Status(Grpc.Internal, c.reply.error.message)))
  {
  }

  /** With a repository whose errors are plain Go errors, CreateUser never
      reports AlreadyExists and GetUser never reports NotFound. */
  lemma PlainRepositoryErrorsAreInternal(req: Pb.CreateUserRequest, id: string, repo: Repository, foreign: Foreign)
    requires forall r :: repo.create(r).Some? ==> repo.create(r).value.Plain?
    requires forall u :: repo.findByID(u).Err? ==> repo.findByID(u).error.Plain?
    ensures CreateUser(req, repo, foreign).reply.Err? && CreateUser(req, repo, foreign).calls != [] ==>
              CreateUser(req, repo, foreign).reply.error.code == Grpc.Internal
    ensures GetUser(id, repo, foreign).reply.Err? && GetUser(id, repo, foreign).calls != [] ==>
              GetUser(id, repo, foreign).reply.error.code == Grpc.Internal
  {
  }
}
