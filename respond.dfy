/** The response writer: what a handler puts on the wire through Go's
    `http.ResponseWriter`, and the two helpers every handler writes with,
    `MarshalResponse` and `handleGRPCError`.

    JSON encoding is not modelled: the body is the sequence of values handed
    to the encoder, and whether encoding succeeded is a parameter. */
module Respond {
  import opened Wrappers
  import Api
  import Grpc
  import Translate
  import Decode

  const ContentTypeHeader := "Content-Type"

  /** A response as sent: the header, the status line (written at most once)
      and the encoded body values. */
  datatype Response = Response(header: map<string, string>, status: Option<int>, body: seq<Api.Payload>) {

    /** `Header().Set`: once the status line is out, header changes no
        longer reach the wire. */
    function WithHeader(key: string, value: string): (r: Response)
      ensures status.None? ==> r.header == header[key := value]
      ensures status.Some? ==> r == this
      ensures r.status == status && r.body == body
    {
      if status.None? then this.(header := header[key := value]) else this
    }

    /** `WriteHeader`: the first call fixes the status; later calls are
        superfluous and change nothing. */
    function WithStatus(code: int): (r: Response)
      ensures r.status == Some(if status.None? then code else status.value)
      ensures r.header == header && r.body == body
    {
      if status.None? then this.(status := Some(code)) else this
    }

    /** `Write`: writing a body first sends an implicit 200. */
    function WithBody(p: Api.Payload): (r: Response)
      ensures r.status == Some(if status.None? then Translate.StatusOK else status.value)
      ensures r.body == body + [p] && r.header == header
    {
      WithStatus(Translate.StatusOK).(body := body + [p])
    }

    /** The effect of `MarshalResponse(w, status, payload)`. */
    function Marshalled(code: int, payload: Api.Payload, marshals: bool): Response {
      var r := WithHeader(ContentTypeHeader, Decode.JsonMediaType);
      if !marshals then r.WithStatus(Translate.StatusInternalServerError)
      else r.WithStatus(code).WithBody(payload)
    }

    /** What a handler writes when `Unmarshal` fails: the decode status, and
        an envelope whose code is read off that status and whose message is
        the error text. */
    function DecodeErrorWritten(code: int, message: string, marshals: bool): Response {
      Marshalled(code, Api.ErrorBody(Api.Error(Translate.ConvertHTTPToErrorCode(code), Some(message))), marshals)
    }

    /** The effect of `handleGRPCError(w, err)`. */
    function GRPCErrorWritten(err: Grpc.RpcError, encodes: bool): Response {
      var code := Grpc.Convert(err).code;
      var r := WithHeader(ContentTypeHeader, Decode.JsonMediaType).WithStatus(Translate.ConvertGRPCCodeToHTTP(code));
      if encodes then r.WithBody(Api.ErrorBody(Api.Error(Translate.ConvertGRPCToErrorCode(code), None)))
      else r.WithStatus(Translate.StatusInternalServerError)
    }
  }

  /** The response a handler starts from. */
  const Unwritten := Response(map[], None, [])

  /** `http.ResponseWriter` as a mutable record. */
  class ResponseWriter {
    var header: map<string, string>
    var status: Option<int>
    var body: seq<Api.Payload>

    function State(): Response
      reads this
    {
      Response(header, status, body)
    }

    constructor ()
      ensures State() == Unwritten
    {
      header, status, body := map[], None, [];
    }

    method SetHeader(key: string, value: string)
      modifies this
      ensures State() == old(State()).WithHeader(key, value)
    {
      if status.None? {
        header := header[key := value];
      }
    }

    method WriteHeader(code: int)
      modifies this
      ensures State() == old(State()).WithStatus(code)
    {
      if status.None? {
        status := Some(code);
      }
    }

    method Write(p: Api.Payload)
      modifies this
      ensures State() == old(State()).WithBody(p)
    {
      WriteHeader(Translate.StatusOK);
      body := body + [p];
    }
  }

  /** `MarshalResponse`: set the JSON Content-Type, then either a bare 500
      (the value could not be marshalled) or the status followed by the
      body. */
  method MarshalResponse(w: ResponseWriter, code: int, payload: Api.Payload, marshals: bool)
    modifies w
    ensures w.State() == old(w.State()).Marshalled(code, payload, marshals)
  {
    w.SetHeader(ContentTypeHeader, Decode.JsonMediaType);
    if !marshals {
      w.WriteHeader(Translate.StatusInternalServerError);
      return;
    }
    w.WriteHeader(code);
    w.Write(payload);
  }

  /** `handleGRPCError`: set the JSON Content-Type, write the status the code
      translates to, then the envelope with the translated code and a null
      message; if encoding fails, a second WriteHeader(500) follows. */
  method HandleGRPCError(w: ResponseWriter, err: Grpc.RpcError, encodes: bool)
    modifies w
    ensures w.State() == old(w.State()).GRPCErrorWritten(err, encodes)
  {
    w.SetHeader(ContentTypeHeader, Decode.JsonMediaType);
    var code := Grpc.Convert(err).code;
    w.WriteHeader(Translate.ConvertGRPCCodeToHTTP(code));
    if !encodes {
      w.WriteHeader(Translate.StatusInternalServerError);
      return;
    }
    w.Write(Api.ErrorBody(Api.Error(Translate.ConvertGRPCToErrorCode(code), None)));
  }

  /** On an unwritten response MarshalResponse always declares JSON, and
      sends either exactly the requested status and one body value, or a bare
      500 with nothing in the body. */
  lemma MarshalResponseOnUnwritten(r: Response, code: int, payload: Api.Payload, marshals: bool)
    requires r.status.None?
    ensures var r' := r.Marshalled(code, payload, marshals);
      && r'.header == r.header[ContentTypeHeader := Decode.JsonMediaType]
      && (marshals ==> r'.status == Some(code) && r'.body == r.body + [payload])
      && (!marshals ==> r'.status == Some(Translate.StatusInternalServerError) && r'.body == r.body)
  {
  }

  /** On an unwritten response handleGRPCError sends the translated status
      whether or not encoding succeeds: the fallback WriteHeader(500) comes
      after the status line and has no effect. The body is the envelope with
      the translated code and a null message, or nothing. */
  lemma GRPCErrorOnUnwritten(r: Response, err: Grpc.RpcError, encodes: bool)
    requires r.status.None?
    ensures var code := Grpc.Convert(err).code;
      var r' := r.GRPCErrorWritten(err, encodes);
      && r'.header == r.header[ContentTypeHeader := Decode.JsonMediaType]
      && r'.status == Some(Translate.ConvertGRPCCodeToHTTP(code))
      && r'.body == r.body + (if encodes then [Api.ErrorBody(Api.Error(Translate.ConvertGRPCToErrorCode(code), None))] else [])
  {
  }

  /** The status line is write-once: after it is out, no helper changes it. */
  lemma StatusIsWriteOnce(r: Response, code: int, payload: Api.Payload, marshals: bool, err: Grpc.RpcError)
    requires r.status.Some?
    ensures r.Marshalled(code, payload, marshals).status == r.status
    ensures r.GRPCErrorWritten(err, marshals).status == r.status
    ensures r.Marshalled(code, payload, marshals).header == r.header
  {
  }

  /** A gRPC failure never reaches the client as a success: every status
      handleGRPCError can write for an error the services produce (never OK)
      is an error status. */
  lemma GRPCErrorIsNeverSuccess(err: Grpc.RpcError, encodes: bool)
    requires Grpc.Convert(err).code != Grpc.OK
    ensures Unwritten.GRPCErrorWritten(err, encodes).status.value >= 400
  {
  }

  /** Every decode failure reaches the client as a 4xx or 500 whose envelope
      names a client error, except the 500 of an unrecognised decoder error,
      which says InternalServerError; the message is always present. */
  lemma DecodeFailureResponse<T>(contentType: string, dec: Decode.Decoding<T>)
    requires Decode.UnmarshalOutcome(contentType, dec).err.Some?
    ensures var u := Decode.UnmarshalOutcome(contentType, dec);
      var r := Unwritten.DecodeErrorWritten(u.status, u.err.value, true);
      && r.status == Some(u.status)
      && u.status in {400, 413, 415, 500}
      && r.body == [Api.ErrorBody(Api.Error(
           if u.status == Translate.StatusInternalServerError then Api.InternalServerError else Api.BadRequest,
           u.err))]
  {
  }
}
