/** The link service's gRPC handlers: validate the id, call the repository,
    classify the outcome as a gRPC status.

    The repository, `primitive.ObjectIDFromHex`, `ObjectID.Hex` and RFC 3339
    time formatting are not visible here: the repository is a value of
    oracle functions, the others are the functions of a `Foreign` value. A
    handler's result records the repository calls it made. */
module LinkGrpc {
  import opened Wrappers
  import Grpc
  import Pb
  import GoErrors

  /** The bytes of a MongoDB ObjectID, and an instant. */
  type ObjectID = seq<bv8>
  type Time = int

  /** `database.Link`, a stored link. */
  datatype Link = Link(
    id: ObjectID, title: string, url: string, images: seq<string>,
    tags: seq<string>, userId: string, createdAt: Time, updatedAt: Time)

  datatype CreateLinkReq = CreateLinkReq(
    id: ObjectID, url: string, title: string, tags: seq<string>,
    images: seq<string>, userId: string)

  datatype UpdateLinkReq = UpdateLinkReq(
    id: ObjectID, url: string, title: string, tags: seq<string>,
    images: seq<string>, userId: string)

  datatype RepoCall =
    | Create(create: CreateLinkReq)
    | FindByID(id: ObjectID)
    | Update(update: UpdateLinkReq)
    | Delete(id: ObjectID)
    | FindAll
    | FindByUserID(userId: string)

  /** What each repository operation answers. */
  datatype Repository = Repository(
    create: CreateLinkReq -> Option<GoErrors.Error>,
    findByID: ObjectID -> Result<Link, GoErrors.Error>,
    update: UpdateLinkReq -> Option<GoErrors.Error>,
    delete: ObjectID -> Option<GoErrors.Error>,
    findAll: Result<seq<Link>, GoErrors.Error>,
    findByUserID: string -> Result<seq<Link>, GoErrors.Error>)

  datatype Foreign = Foreign(
    objectIDFromHex: string -> Result<ObjectID, string>,
    hex: ObjectID -> string,
    formatRFC3339: Time -> string)

  /** A handler's reply and the repository calls it made, in order. */
  datatype Served<T> = Served(reply: Result<T, Grpc.Status>, calls: seq<RepoCall>)

  /** The protobuf form of a stored link. */
  function PbLink(l: Link, foreign: Foreign): Pb.Link {
    Pb.Link(
      id := foreign.hex(l.id), title := l.title, url := l.url, images := l.images,
      tags := l.tags, userId := l.userId, createdAt := foreign.formatRFC3339(l.createdAt),
      updatedAt := foreign.formatRFC3339(l.updatedAt))
  }

  function CreateLinkReqOf(req: Pb.CreateLinkRequest, id: ObjectID): CreateLinkReq {
    CreateLinkReq(id, req.url, req.title, req.tags, req.images, req.userId)
  }

  function UpdateLinkReqOf(req: Pb.UpdateLinkRequest, id: ObjectID): UpdateLinkReq {
    UpdateLinkReq(id, req.url, req.title, req.tags, req.images, req.userId)
  }

  /** CreateLink: an id that is not an ObjectID is InvalidArgument before the
      repository is touched; a repository error is AlreadyExists only if it
      matches a fresh "conflict" error, else Internal. */
  function CreateLink(req: Pb.CreateLinkRequest, repo: Repository, foreign: Foreign): (s: Served<Pb.Empty>)
    ensures s.reply.Err? ==> s.reply.error.code in {Grpc.InvalidArgument, Grpc.AlreadyExists, Grpc.Internal}
    ensures s.calls == [] <==> foreign.objectIDFromHex(req.id).Err?
    ensures foreign.objectIDFromHex(req.id).Err? ==>
              s.reply == Err(Grpc.Status(Grpc.InvalidArgument, foreign.objectIDFromHex(req.id).error))
    ensures s.reply.Err? && s.reply.error.code == Grpc.InvalidArgument <==> foreign.objectIDFromHex(req.id).Err?
    ensures s.calls != [] ==> s.calls == [Create(CreateLinkReqOf(req, foreign.objectIDFromHex(req.id).value))]
    ensures s.reply.Ok? <==> s.calls != [] && repo.create(s.calls[0].create).None?
    ensures s.reply.Err? && s.reply.error.code == Grpc.AlreadyExists <==>
              && s.calls != []
              && repo.create(s.calls[0].create).Some?
              && GoErrors.IsFresh(repo.create(s.calls[0].create).value, "conflict")
    ensures s.reply.Err? && s.calls != [] ==> s.reply.error.message == repo.create(s.calls[0].create).value.text
  {
    match foreign.objectIDFromHex(req.id)
    case Err(msg) => Served(Err(Grpc.Status(Grpc.InvalidArgument, msg)), [])
    case Ok(objectID) =>
      var dbReq := CreateLinkReqOf(req, objectID);
      match repo.create(dbReq)
      case None => Served(Ok(Pb.Empty), [Create(dbReq)])
      case Some(err) =>
        if GoErrors.IsFresh(err, "conflict") then Served(Err(Grpc.Status(Grpc.AlreadyExists, err.text)), [Create(dbReq)])
        else Served(Err(Grpc.Status(Grpc.Internal, err.text)), [Create(dbReq)])
  }

  /** GetLink: InvalidArgument for a bad id without a repository call;
      NotFound only if the error matches a fresh "not found" error, else
      Internal; on success the stored link in protobuf form. */
  function GetLink(id: string, repo: Repository, foreign: Foreign): (s: Served<Pb.Link>)
    ensures s.reply.Err? ==> s.reply.error.code in {Grpc.InvalidArgument, Grpc.NotFound, Grpc.Internal}
    ensures s.calls == [] <==> foreign.objectIDFromHex(id).Err?
    ensures foreign.objectIDFromHex(id).Err? ==>
              s.reply == Err(Grpc.Status(Grpc.InvalidArgument, foreign.objectIDFromHex(id).error))
    ensures s.reply.Err? && s.reply.error.code == Grpc.InvalidArgument <==> foreign.objectIDFromHex(id).Err?
    ensures s.calls != [] ==> s.calls == [FindByID(foreign.objectIDFromHex(id).value)]
    ensures s.reply.Ok? <==> s.calls != [] && repo.findByID(s.calls[0].id).Ok?
    ensures s.reply.Ok? ==> s.reply.value == PbLink(repo.findByID(s.calls[0].id).value, foreign)
    ensures s.reply.Err? && s.reply.error.code == Grpc.NotFound <==>
              && s.calls != []
              && repo.findByID(s.calls[0].id).Err?
              && GoErrors.IsFresh(repo.findByID(s.calls[0].id).error, "not found")
    ensures s.reply.Err? && s.calls != [] ==> s.reply.error.message == repo.findByID(s.calls[0].id).error.text
  {
    match foreign.objectIDFromHex(id)
    case Err(msg) => Served(Err(Grpc.Status(Grpc.InvalidArgument, msg)), [])
    case Ok(objectID) =>
      match repo.findByID(objectID)
      case Err(err) =>
        if GoErrors.IsFresh(err, "not found") then Served(Err(Grpc.Status(Grpc.NotFound, err.text)), [FindByID(objectID)])
        else Served(Err(Grpc.Status(Grpc.Internal, err.text)), [FindByID(objectID)])
      case Ok(l) => Served(Ok(PbLink(l, foreign)), [FindByID(objectID)])
  }

  /** UpdateLink: InvalidArgument for a bad id without a repository call;
      every repository error is Internal. */
  function UpdateLink(req: Pb.UpdateLinkRequest, repo: Repository, foreign: Foreign): (s: Served<Pb.Empty>)
    ensures s.reply.Err? ==> s.reply.error.code in {Grpc.InvalidArgument, Grpc.Internal}
    ensures s.calls == [] <==> foreign.objectIDFromHex(req.id).Err?
    ensures foreign.objectIDFromHex(req.id).Err? ==>
              s.reply == Err(Grpc.Status(Grpc.InvalidArgument, foreign.objectIDFromHex(req.id).error))
    ensures s.reply.Err? && s.reply.error.code == Grpc.InvalidArgument <==> foreign.objectIDFromHex(req.id).Err?
    ensures s.calls != [] ==> s.calls == [Update(UpdateLinkReqOf(req, foreign.objectIDFromHex(req.id).value))]
    ensures s.reply.Ok? <==> s.calls != [] && repo.update(s.calls[0].update).None?
    ensures s.reply.Err? && s.calls != [] ==> s.reply.error.message == repo.update(s.calls[0].update).value.text
  {
    match foreign.objectIDFromHex(req.id)
    case Err(msg) => Served(Err(Grpc.Status(Grpc.InvalidArgument, msg)), [])
    case Ok(objectID) =>
      var dbReq := UpdateLinkReqOf(req, objectID);
      match repo.update(dbReq)
      case None => Served(Ok(Pb.Empty), [Update(dbReq)])
      case Some(err) => Served(Err(Grpc.Status(Grpc.Internal, err.text)), [Update(dbReq)])
  }

  /** DeleteLink: InvalidArgument for a bad id without a repository call;
      every repository error is Internal. */
  function DeleteLink(id: string, repo: Repository, foreign: Foreign): (s: Served<Pb.Empty>)
    ensures s.reply.Err? ==> s.reply.error.code in {Grpc.InvalidArgument, Grpc.Internal}
    ensures s.calls == [] <==> foreign.objectIDFromHex(id).Err?
    ensures foreign.objectIDFromHex(id).Err? ==>
              s.reply == Err(Grpc.Status(Grpc.InvalidArgument, foreign.objectIDFromHex(id).error))
    ensures s.reply.Err? && s.reply.error.code == Grpc.InvalidArgument <==> foreign.objectIDFromHex(id).Err?
    ensures s.calls != [] ==> s.calls == [Delete(foreign.objectIDFromHex(id).value)]
    ensures s.reply.Ok? <==> s.calls != [] && repo.delete(s.calls[0].id).None?
    ensures s.reply.Err? && s.calls != [] ==> s.reply.error.message == repo.delete(s.calls[0].id).value.text
  {
    match foreign.objectIDFromHex(id)
    case Err(msg) => Served(Err(Grpc.Status(Grpc.InvalidArgument, msg)), [])
    case Ok(objectID) =>
      match repo.delete(objectID)
      case None => Served(Ok(Pb.Empty), [Delete(objectID)])
      case Some(err) => Served(Err(Grpc.Status(Grpc.Internal, err.text)), [Delete(objectID)])
  }

  /** The `response` loop of ListLinks and GetLinkByUserID: one protobuf link
      per stored link, in order. */
  method ConvertLinks(list: seq<Link>, foreign: Foreign) returns (response: seq<Pb.Link>)
    ensures |response| == |list|
    ensures forall i :: 0 <= i < |list| ==> response[i] == PbLink(list[i], foreign)
  {
    response := [];
    for i := 0 to |list|
      invariant |response| == i
      invariant forall k :: 0 <= k < i ==> response[k] == PbLink(list[k], foreign)
    {
      response := response + [PbLink(list[i], foreign)];
    }
  }

  /** ListLinks: every stored link in protobuf form, in order; any repository
      error is Internal. */
  method ListLinks(repo: Repository, foreign: Foreign) returns (s: Served<seq<Pb.Link>>)
    ensures s.calls == [FindAll]
    ensures repo.findAll.Err? ==> s.reply == Err(Grpc.Status(Grpc.Internal, repo.findAll.error.text))
    ensures repo.findAll.Ok? ==>
              && s.reply.Ok?
              && |s.reply.value| == |repo.findAll.value|
              && forall i :: 0 <= i < |repo.findAll.value| ==> s.reply.value[i] == PbLink(repo.findAll.value[i], foreign)
  {
    var list := repo.findAll;
    if list.Err? {
      return Served(Err(Grpc.Status(Grpc.Internal, list.error.text)), [FindAll]);
    }
    var response := ConvertLinks(list.value, foreign);
    s := Served(Ok(response), [FindAll]);
  }

  /** GetLinkByUserID: the user id goes to the repository unvalidated and
      unchanged; the result is converted like ListLinks. */
  method GetLinkByUserID(userId: string, repo: Repository, foreign: Foreign) returns (s: Served<seq<Pb.Link>>)
    ensures s.calls == [FindByUserID(userId)]
    ensures repo.findByUserID(userId).Err? ==> s.reply == Err(Grpc.Status(Grpc.Internal, repo.findByUserID(userId).error.text))
    ensures repo.findByUserID(userId).Ok? ==>
              && s.reply.Ok?
              && |s.reply.value| == |repo.findByUserID(userId).value|
              && forall i :: 0 <= i < |s.reply.value| ==> s.reply.value[i] == PbLink(repo.findByUserID(userId).value[i], foreign)
  {
    var list := repo.findByUserID(userId);
    if list.Err? {
      return Served(Err(Grpc.Status(Grpc.Internal, list.error.text)), [FindByUserID(userId)]);
    }
    var response := ConvertLinks(list.value, foreign);
    s := Served(Ok(response), [FindByUserID(userId)]);
  }

  /** A stored link reaches the client field for field: the id as its hex
      form, the timestamps in RFC 3339; and the repository requests carry the
      parsed id with the request's other fields unchanged. */
  lemma LinkConversionsKeepFields(l: Link, c: Pb.CreateLinkRequest, u: Pb.UpdateLinkRequest, id: ObjectID, foreign: Foreign)
    ensures var p := PbLink(l, foreign);
      && p.id == foreign.hex(l.id) && p.title == l.title && p.url == l.url
      && p.images == l.images && p.tags == l.tags && p.userId == l.userId
      && p.createdAt == foreign.formatRFC3339(l.createdAt) && p.updatedAt == foreign.formatRFC3339(l.updatedAt)
    ensures var r := CreateLinkReqOf(c, id);
      && r.id == id && r.url == c.url && r.title == c.title
      && r.tags == c.tags && r.images == c.images && r.userId == c.userId
    ensures var r := UpdateLinkReqOf(u, id);
      && r.id == id && r.url == u.url && r.title == u.title
      && r.tags == u.tags && r.images == u.images && r.userId == u.userId
  {
  }

  /** With a repository whose errors are plain Go errors, CreateLink never
      reports AlreadyExists and GetLink never reports NotFound: both
      classifications are dead and every repository failure is Internal. */
  lemma PlainRepositoryErrorsAreInternal(req: Pb.CreateLinkRequest, id: string, repo: Repository, foreign: Foreign)
    requires forall r :: repo.create(r).Some? ==> repo.create(r).value.Plain?
    requires forall oid :: repo.findByID(oid).Err? ==> repo.findByID(oid).error.Plain?
    ensures CreateLink(req, repo, foreign).reply.Err? && CreateLink(req, repo, foreign).calls != [] ==>
              CreateLink(req, repo, foreign).reply.error.code == Grpc.Internal
    ensures GetLink(id, repo, foreign).reply.Err? && GetLink(id, repo, foreign).calls != [] ==>
              GetLink(id, repo, foreign).reply.error.code == Grpc.Internal
  {
  }
}
