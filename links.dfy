/** The gateway's `/links` handlers: decode the request, call the link
    service over gRPC, translate a failure, write the response.

    The gRPC client is an oracle: each call is logged, and what it answers is
    fixed by the client's functions of the request. */
module LinksGateway {
  import opened Wrappers
  import Api
  import Pb
  import Grpc
  import Translate
  import Decode
  import Respond

  /** A call the gateway made to the link service. */
  datatype LinkCall =
    | ListLinksCall
    | CreateLinkCall(create: Pb.CreateLinkRequest)
    | DeleteLinkCall(id: string)
    | GetLinkCall(id: string)
    | UpdateLinkCall(update: Pb.UpdateLinkRequest)
    | GetLinkByUserIDCall(userId: string)

  /** The link service client: answers are functions of the request, and
      `calls` records every request sent. */
  class LinksClient {
    var calls: seq<LinkCall>
    const listLinks: Result<seq<Pb.Link>, Grpc.RpcError>
    const createLink: Pb.CreateLinkRequest -> Option<Grpc.RpcError>
    const deleteLink: string -> Option<Grpc.RpcError>
    const getLink: string -> Result<Pb.Link, Grpc.RpcError>
    const updateLink: Pb.UpdateLinkRequest -> Option<Grpc.RpcError>
    const getLinkByUserID: string -> Result<seq<Pb.Link>, Grpc.RpcError>

    constructor (
      listLinks: Result<seq<Pb.Link>, Grpc.RpcError>,
      createLink: Pb.CreateLinkRequest -> Option<Grpc.RpcError>,
      deleteLink: string -> Option<Grpc.RpcError>,
      getLink: string -> Result<Pb.Link, Grpc.RpcError>,
      updateLink: Pb.UpdateLinkRequest -> Option<Grpc.RpcError>,
      getLinkByUserID: string -> Result<seq<Pb.Link>, Grpc.RpcError>)
      ensures calls == []
      ensures this.listLinks == listLinks && this.createLink == createLink
      ensures this.deleteLink == deleteLink && this.getLink == getLink
      ensures this.updateLink == updateLink && this.getLinkByUserID == getLinkByUserID
    {
      calls := [];
      this.listLinks, this.createLink, this.deleteLink := listLinks, createLink, deleteLink;
      this.getLink, this.updateLink, this.getLinkByUserID := getLink, updateLink, getLinkByUserID;
    }

    method ListLinks() returns (res: Result<seq<Pb.Link>, Grpc.RpcError>)
      modifies this
      ensures calls == old(calls) + [ListLinksCall] && res == listLinks
    {
      calls := calls + [ListLinksCall];
      res := listLinks;
    }

    method CreateLink(req: Pb.CreateLinkRequest) returns (err: Option<Grpc.RpcError>)
      modifies this
      ensures calls == old(calls) + [CreateLinkCall(req)] && err == createLink(req)
    {
      calls := calls + [CreateLinkCall(req)];
      err := createLink(req);
    }

    method DeleteLink(id: string) returns (err: Option<Grpc.RpcError>)
      modifies this
      ensures calls == old(calls) + [DeleteLinkCall(id)] && err == deleteLink(id)
    {
      calls := calls + [DeleteLinkCall(id)];
      err := deleteLink(id);
    }

    method GetLink(id: string) returns (res: Result<Pb.Link, Grpc.RpcError>)
      modifies this
      ensures calls == old(calls) + [GetLinkCall(id)] && res == getLink(id)
    {
      calls := calls + [GetLinkCall(id)];
      res := getLink(id);
    }

    method UpdateLink(req: Pb.UpdateLinkRequest) returns (err: Option<Grpc.RpcError>)
      modifies this
      ensures calls == old(calls) + [UpdateLinkCall(req)] && err == updateLink(req)
    {
      calls := calls + [UpdateLinkCall(req)];
      err := updateLink(req);
    }

    method GetLinkByUserID(userId: string) returns (res: Result<seq<Pb.Link>, Grpc.RpcError>)
      modifies this
      ensures calls == old(calls) + [GetLinkByUserIDCall(userId)] && res == getLinkByUserID(userId)
    {
      calls := calls + [GetLinkByUserIDCall(userId)];
      res := getLinkByUserID(userId);
    }
  }

  /** The HTTP representation of a link: every field of the service's link. */
  function ApiLink(l: Pb.Link): Api.Link {
    Api.Link(
      createdAt := l.createdAt, id := l.id, images := l.images, tags := l.tags,
      title := l.title, updatedAt := l.updatedAt, url := l.url, userId := l.userId)
  }

  /** The element-wise conversion of a list of links, in order. */
  function ApiLinks(links: seq<Pb.Link>): seq<Api.Link> {
    seq(|links|, i requires 0 <= i < |links| => ApiLink(links[i]))
  }

  /** The link-list loop of GetLinks and GetLinksUserUserID. */
  method ConvertLinks(links: seq<Pb.Link>) returns (list: seq<Api.Link>)
    ensures |list| == |links|
    ensures forall i :: 0 <= i < |links| ==> list[i] == ApiLink(links[i])
  {
    list := [];
    for i := 0 to |links|
      invariant |list| == i
      invariant forall k :: 0 <= k < i ==> list[k] == ApiLink(links[k])
    {
      list := list + [ApiLink(links[i])];
    }
  }

  function CreateLinkRequestOf(l: Api.LinkCreate): Pb.CreateLinkRequest {
    Pb.CreateLinkRequest(
      id := l.id, title := l.title, url := l.url, images := l.images,
      tags := l.tags, userId := l.userId)
  }

  function UpdateLinkRequestOf(l: Api.LinkCreate): Pb.UpdateLinkRequest {
    Pb.UpdateLinkRequest(
      id := l.id, title := l.title, url := l.url, images := l.images,
      tags := l.tags, userId := l.userId)
  }

  /** The conversion loses nothing: distinct links stay distinct. */
  lemma ApiLinkIsLossless(a: Pb.Link, b: Pb.Link)
    ensures ApiLink(a) == ApiLink(b) <==> a == b
    ensures var l := ApiLink(a);
      && l.id == a.id && l.title == a.title && l.url == a.url && l.images == a.images
      && l.tags == a.tags && l.userId == a.userId && l.createdAt == a.createdAt && l.updatedAt == a.updatedAt
  {
  }

  /** The request bodies are forwarded field for field. */
  lemma LinkRequestsAreLossless(a: Api.LinkCreate, b: Api.LinkCreate)
    ensures CreateLinkRequestOf(a) == CreateLinkRequestOf(b) <==> a == b
    ensures UpdateLinkRequestOf(a) == UpdateLinkRequestOf(b) <==> a == b
    ensures var c := CreateLinkRequestOf(a);
      && c.id == a.id && c.title == a.title && c.url == a.url
      && c.images == a.images && c.tags == a.tags && c.userId == a.userId
    ensures var u := UpdateLinkRequestOf(a);
      && u.id == a.id && u.title == a.title && u.url == a.url
      && u.images == a.images && u.tags == a.tags && u.userId == a.userId
  {
  }

  class LinksHandler {
    const client: LinksClient

    constructor (client: LinksClient)
      ensures this.client == client
    {
      this.client := client;
    }

    /** GET /links: the service's list, converted in order, with 200. */
    method GetLinks(w: Respond.ResponseWriter, marshals: bool)
      modifies w, client
      ensures client.calls == old(client.calls) + [ListLinksCall]
      ensures w.State() == match client.listLinks
        case Err(e) => old(w.State()).GRPCErrorWritten(e, marshals)
        case Ok(links) => old(w.State()).Marshalled(Translate.StatusOK, Api.LinkListBody(ApiLinks(links)), marshals)
    {
      var resp := client.ListLinks();
      if resp.Err? {
        Respond.HandleGRPCError(w, resp.error, marshals);
        return;
      }
      var linkList := ConvertLinks(resp.value);
      assert linkList == ApiLinks(resp.value);
      Respond.MarshalResponse(w, Translate.StatusOK, Api.LinkListBody(linkList), marshals);
    }

    /** POST /links: a body that does not decode is answered without calling
        the service; otherwise CreateLink, then 201 with no body. */
    method PostLinks(w: Respond.ResponseWriter, r: Decode.Request, dec: Decode.Decoding<Api.LinkCreate>, marshals: bool)
      modifies w, r, client
      ensures var u := Decode.UnmarshalOutcome(r.contentType, dec);
        if u.err.Some? then
          && client.calls == old(client.calls)
          && w.State() == old(w.State()).DecodeErrorWritten(u.status, u.err.value, marshals)
        else
          var req := CreateLinkRequestOf(dec.result.value);
          && client.calls == old(client.calls) + [CreateLinkCall(req)]
          && w.State() == match client.createLink(req)
               case Some(e) => old(w.State()).GRPCErrorWritten(e, marshals)
               case None => old(w.State()).WithStatus(Translate.StatusCreated)
      ensures r.bodyLimit == if Decode.IsJsonContentType(r.contentType) then Some(Decode.MaxBodyBytes) else old(r.bodyLimit)
      ensures r.bodyClosed == (Decode.IsJsonContentType(r.contentType) || old(r.bodyClosed))
    {
      var code, err := Decode.Unmarshal(r, dec);
      if err.Some? {
        Respond.MarshalResponse(w, code, Api.ErrorBody(Api.Error(Translate.ConvertHTTPToErrorCode(code), err)), marshals);
        return;
      }
      var l := dec.result.value;
      var rpcErr := client.CreateLink(CreateLinkRequestOf(l));
      if rpcErr.Some? {
        Respond.HandleGRPCError(w, rpcErr.value, marshals);
        return;
      }
      w.WriteHeader(Translate.StatusCreated);
    }

    /** DELETE /links/{id}: the path id goes to DeleteLink as is; 204. */
    method DeleteLinksId(w: Respond.ResponseWriter, id: string, marshals: bool)
      modifies w, client
      ensures client.calls == old(client.calls) + [DeleteLinkCall(id)]
      ensures w.State() == match client.deleteLink(id)
        case Some(e) => old(w.State()).GRPCErrorWritten(e, marshals)
        case None => old(w.State()).WithStatus(Translate.StatusNoContent)
    {
      var err := client.DeleteLink(id);
      if err.Some? {
        Respond.HandleGRPCError(w, err.value, marshals);
        return;
      }
      w.WriteHeader(Translate.StatusNoContent);
    }

    /** GET /links/{id}: the path id goes to GetLink as is; 200 with the link. */
    method GetLinksId(w: Respond.ResponseWriter, id: string, marshals: bool)
      modifies w, client
      ensures client.calls == old(client.calls) + [GetLinkCall(id)]
      ensures w.State() == match client.getLink(id)
        case Err(e) => old(w.State()).GRPCErrorWritten(e, marshals)
        case Ok(link) => old(w.State()).Marshalled(Translate.StatusOK, Api.LinkBody(ApiLink(link)), marshals)
    {
      var link := client.GetLink(id);
      if link.Err? {
        Respond.HandleGRPCError(w, link.error, marshals);
        return;
      }
      Respond.MarshalResponse(w, Translate.StatusOK, Api.LinkBody(ApiLink(link.value)), marshals);
    }

    /** PUT /links/{id}: like POST, but UpdateLink and 204. The link updated is
        the one the body names; the path id is not used. */
    method PutLinksId(w: Respond.ResponseWriter, r: Decode.Request, id: string, dec: Decode.Decoding<Api.LinkCreate>, marshals: bool)
      modifies w, r, client
      ensures var u := Decode.UnmarshalOutcome(r.contentType, dec);
        if u.err.Some? then
          && client.calls == old(client.calls)
          && w.State() == old(w.State()).DecodeErrorWritten(u.status, u.err.value, marshals)
        else
          var req := UpdateLinkRequestOf(dec.result.value);
          && req.id == dec.result.value.id
          && client.calls == old(client.calls) + [UpdateLinkCall(req)]
          && w.State() == match client.updateLink(req)
               case Some(e) => old(w.State()).GRPCErrorWritten(e, marshals)
               case None => old(w.State()).WithStatus(Translate.StatusNoContent)
      ensures r.bodyLimit == if Decode.IsJsonContentType(r.contentType) then Some(Decode.MaxBodyBytes) else old(r.bodyLimit)
      ensures r.bodyClosed == (Decode.IsJsonContentType(r.contentType) || old(r.bodyClosed))
    {
      var code, err := Decode.Unmarshal(r, dec);
      if err.Some? {
        Respond.MarshalResponse(w, code, Api.ErrorBody(Api.Error(Translate.ConvertHTTPToErrorCode(code), err)), marshals);
        return;
      }
      var l := dec.result.value;
      var rpcErr := client.UpdateLink(UpdateLinkRequestOf(l));
      if rpcErr.Some? {
        Respond.HandleGRPCError(w, rpcErr.value, marshals);
        return;
      }
      w.WriteHeader(Translate.StatusNoContent);
    }

    /** GET /links/user/{userID}: the user's links, converted in order, with 200. */
    method GetLinksUserUserID(w: Respond.ResponseWriter, userId: string, marshals: bool)
      modifies w, client
      ensures client.calls == old(client.calls) + [GetLinkByUserIDCall(userId)]
      ensures w.State() == match client.getLinkByUserID(userId)
        case Err(e) => old(w.State()).GRPCErrorWritten(e, marshals)
        case Ok(links) => old(w.State()).Marshalled(Translate.StatusOK, Api.LinkListBody(ApiLinks(links)), marshals)
    {
      var resp := client.GetLinkByUserID(userId);
      if resp.Err? {
        Respond.HandleGRPCError(w, resp.error, marshals);
        return;
      }
      var linkList := ConvertLinks(resp.value);
      assert linkList == ApiLinks(resp.value);
      Respond.MarshalResponse(w, Translate.StatusOK, Api.LinkListBody(linkList), marshals);
    }
  }
}
