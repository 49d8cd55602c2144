/** The gRPC status vocabulary the gateway consumes: the canonical codes of
    `google.golang.org/grpc/codes`, a status (code and message) and the
    errors an RPC call can return. */
module Grpc {

  /** `codes.Code` is a `uint32`: every 32-bit value is a code, but only 0..16
      are canonical. */
  type Code = c: int | 0 <= c < 0x1_0000_0000

  const OK: Code := 0
  const Canceled: Code := 1
  const Unknown: Code := 2
  const InvalidArgument: Code := 3
  const DeadlineExceeded: Code := 4
  const NotFound: Code := 5
  const AlreadyExists: Code := 6
  const PermissionDenied: Code := 7
  const ResourceExhausted: Code := 8
  const FailedPrecondition: Code := 9
  const Aborted: Code := 10
  const OutOfRange: Code := 11
  const Unimplemented: Code := 12
  const Internal: Code := 13
  const Unavailable: Code := 14
  const DataLoss: Code := 15
  const Unauthenticated: Code := 16

  predicate IsCanonical(c: Code) {
    c <= Unauthenticated
  }

  /** What `status.Error(code, message)` carries. */
  datatype Status = Status(code: Code, message: string)

  /** An error returned by an RPC client call: either a gRPC status error or
      some other Go error that carries no status. */
  datatype RpcError = StatusError(status: Status) | PlainError(text: string)

  /** `status.Convert`: a status error yields its own status, any other error
      becomes an `Unknown` status carrying the error's text. */
  function Convert(err: RpcError): (s: Status)
    ensures err.StatusError? ==> s == err.status
    ensures err.PlainError? ==> s.code == Unknown && s.message == err.text
  {
    match err
    case StatusError(st) => st
    case PlainError(text) => Status(Unknown, text)
  }
}
