/** The status translator of the gateway: gRPC code to HTTP status, gRPC
    code to application error code, and HTTP status to application error
    code. HTTP status meanings follow section 15 of RFC 9110; 429 is from
    section 4 of RFC 6585. */
module Translate {
  import Grpc
  import Api

  const StatusOK := 200
  const StatusCreated := 201
  const StatusNoContent := 204
  const StatusBadRequest := 400
  const StatusUnauthorized := 401
  const StatusForbidden := 403
  const StatusNotFound := 404
  const StatusRequestTimeout := 408
  const StatusConflict := 409
  const StatusRequestEntityTooLarge := 413
  const StatusUnsupportedMediaType := 415
  const StatusTooManyRequests := 429
  const StatusInternalServerError := 500
  const StatusNotImplemented := 501
  const StatusServiceUnavailable := 503
  const StatusGatewayTimeout := 504

  /** The HTTP status written for a failed RPC: one fixed entry per canonical
      code, 500 for any other code value. */
  function ConvertGRPCCodeToHTTP(c: Grpc.Code): (status: int)
    ensures status in {200, 400, 401, 403, 404, 408, 409, 429, 500, 501, 503, 504}
    ensures !Grpc.IsCanonical(c) ==> status == StatusInternalServerError
    ensures status == StatusOK <==> c == Grpc.OK
  {
    if c == Grpc.OK then StatusOK
    else if c == Grpc.Canceled then StatusRequestTimeout
    else if c == Grpc.Unknown then StatusInternalServerError
    else if c == Grpc.InvalidArgument then StatusBadRequest
    else if c == Grpc.DeadlineExceeded then StatusGatewayTimeout
    else if c == Grpc.NotFound then StatusNotFound
    else if c == Grpc.AlreadyExists then StatusConflict
    else if c == Grpc.PermissionDenied then StatusForbidden
    else if c == Grpc.ResourceExhausted then StatusTooManyRequests
    else if c == Grpc.FailedPrecondition then StatusBadRequest
    else if c == Grpc.Aborted then StatusConflict
    else if c == Grpc.OutOfRange then StatusBadRequest
    else if c == Grpc.Unimplemented then StatusNotImplemented
    else if c == Grpc.Internal then StatusInternalServerError
    else if c == Grpc.Unavailable then StatusServiceUnavailable
    else if c == Grpc.DataLoss then StatusInternalServerError
    else if c == Grpc.Unauthenticated then StatusUnauthorized
    else StatusInternalServerError
  }

  /** The envelope code for a failed RPC; every code outside the four
      explicit groups falls back to InternalServerError. */
  function ConvertGRPCToErrorCode(c: Grpc.Code): (e: Api.ErrorCode)
    ensures e == Api.NotFound <==> c == Grpc.NotFound
    ensures e == Api.BadRequest <==> c in {Grpc.InvalidArgument, Grpc.FailedPrecondition, Grpc.OutOfRange}
    ensures e == Api.Conflict <==> c in {Grpc.Aborted, Grpc.AlreadyExists}
  {
    if c in {Grpc.Internal, Grpc.Unknown, Grpc.DataLoss} then Api.InternalServerError
    else if c == Grpc.NotFound then Api.NotFound
    else if c in {Grpc.InvalidArgument, Grpc.FailedPrecondition, Grpc.OutOfRange} then Api.BadRequest
    else if c in {Grpc.Aborted, Grpc.AlreadyExists} then Api.Conflict
    else Api.InternalServerError
  }

  /** The envelope code for a failed request-body decode. */
  function ConvertHTTPToErrorCode(status: int): (e: Api.ErrorCode)
    ensures e == Api.BadRequest <==> status in {400, 413, 415}
    ensures e == Api.Conflict <==> status == 409
    ensures e != Api.NotFound
  {
    if status == StatusBadRequest then Api.BadRequest
    else if status == StatusInternalServerError then Api.InternalServerError
    else if status == StatusRequestEntityTooLarge then Api.BadRequest
    else if status == StatusUnsupportedMediaType then Api.BadRequest
    else if status == StatusConflict then Api.Conflict
    else Api.InternalServerError
  }

  /** The two RPC tables agree on every client-visible error class: an envelope
      says BadRequest, Conflict or NotFound exactly when the status line says
      400, 409 or 404; a 500 always carries InternalServerError. */
  lemma ErrorCodeAgreesWithHTTP(c: Grpc.Code)
    ensures ConvertGRPCToErrorCode(c) == Api.BadRequest <==> ConvertGRPCCodeToHTTP(c) == StatusBadRequest
    ensures ConvertGRPCToErrorCode(c) == Api.Conflict <==> ConvertGRPCCodeToHTTP(c) == StatusConflict
    ensures ConvertGRPCToErrorCode(c) == Api.NotFound <==> ConvertGRPCCodeToHTTP(c) == StatusNotFound
    ensures ConvertGRPCCodeToHTTP(c) == StatusInternalServerError ==> ConvertGRPCToErrorCode(c) == Api.InternalServerError
  {
  }

  /** Reading the envelope code back off the HTTP status reproduces the RPC
      table for every code except NotFound: ConvertHTTPToErrorCode has no 404
      entry, so 404 falls to its InternalServerError default. */
  lemma HTTPTableRecoversErrorCode(c: Grpc.Code)
    ensures ConvertHTTPToErrorCode(ConvertGRPCCodeToHTTP(c)) == ConvertGRPCToErrorCode(c) <==> c != Grpc.NotFound
  {
  }

  /** The full table, one entry per canonical code. */
  lemma GRPCCodeTable()
    ensures ConvertGRPCCodeToHTTP(Grpc.OK) == 200 && ConvertGRPCToErrorCode(Grpc.OK) == Api.InternalServerError
    ensures ConvertGRPCCodeToHTTP(Grpc.Canceled) == 408 && ConvertGRPCToErrorCode(Grpc.Canceled) == Api.InternalServerError
    ensures ConvertGRPCCodeToHTTP(Grpc.Unknown) == 500 && ConvertGRPCToErrorCode(Grpc.Unknown) == Api.InternalServerError
    ensures ConvertGRPCCodeToHTTP(Grpc.InvalidArgument) == 400 && ConvertGRPCToErrorCode(Grpc.InvalidArgument) == Api.BadRequest
    ensures ConvertGRPCCodeToHTTP(Grpc.DeadlineExceeded) == 504 && ConvertGRPCToErrorCode(Grpc.DeadlineExceeded) == Api.InternalServerError
    ensures ConvertGRPCCodeToHTTP(Grpc.NotFound) == 404 && ConvertGRPCToErrorCode(Grpc.NotFound) == Api.NotFound
    ensures ConvertGRPCCodeToHTTP(Grpc.AlreadyExists) == 409 && ConvertGRPCToErrorCode(Grpc.AlreadyExists) == Api.Conflict
    ensures ConvertGRPCCodeToHTTP(Grpc.PermissionDenied) == 403 && ConvertGRPCToErrorCode(Grpc.PermissionDenied) == Api.InternalServerError
    ensures ConvertGRPCCodeToHTTP(Grpc.ResourceExhausted) == 429 && ConvertGRPCToErrorCode(Grpc.ResourceExhausted) == Api.InternalServerError
    ensures ConvertGRPCCodeToHTTP(Grpc.FailedPrecondition) == 400 && ConvertGRPCToErrorCode(Grpc.FailedPrecondition) == Api.BadRequest
    ensures ConvertGRPCCodeToHTTP(Grpc.Aborted) == 409 && ConvertGRPCToErrorCode(Grpc.Aborted) == Api.Conflict
    ensures ConvertGRPCCodeToHTTP(Grpc.OutOfRange) == 400 && ConvertGRPCToErrorCode(Grpc.OutOfRange) == Api.BadRequest
    ensures ConvertGRPCCodeToHTTP(Grpc.Unimplemented) == 501 && ConvertGRPCToErrorCode(Grpc.Unimplemented) == Api.InternalServerError
    ensures ConvertGRPCCodeToHTTP(Grpc.Internal) == 500 && ConvertGRPCToErrorCode(Grpc.Internal) == Api.InternalServerError
    ensures ConvertGRPCCodeToHTTP(Grpc.Unavailable) == 503 && ConvertGRPCToErrorCode(Grpc.Unavailable) == Api.InternalServerError
    ensures ConvertGRPCCodeToHTTP(Grpc.DataLoss) == 500 && ConvertGRPCToErrorCode(Grpc.DataLoss) == Api.InternalServerError
    ensures ConvertGRPCCodeToHTTP(Grpc.Unauthenticated) == 401 && ConvertGRPCToErrorCode(Grpc.Unauthenticated) == Api.InternalServerError
  {
  }
}
