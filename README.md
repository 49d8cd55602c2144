# Protocol translation layer of the user/link API gateway, in Dafny

This project models the core of a Go service that exposes users and links
over HTTP/JSON and forwards each request to a gRPC backend. It covers:

- the **status translator** (`internal/apigw/v1/handler.go`): gRPC code to
  HTTP status, gRPC code to application error code, HTTP status to
  application error code (module `Translate`, codes in `Grpc`);
- the **decode classifier** `Unmarshal`: the Content-Type test, the
  64,000-byte body cap, and the first-match-wins classification of decoder
  errors into `(status, message)` outcomes (module `Decode`, string helpers
  in `Strings`);
- the **response writer** `MarshalResponse` / `handleGRPCError` over a
  response with a header map, a write-once status line and a body
  (module `Respond`);
- the **gateway handlers** of `links.go` and `users.go` as methods of
  handler classes that call a logging gRPC client oracle and write to a
  `ResponseWriter` (modules `LinksGateway`, `UsersGateway`);
- the **gRPC service handlers** of `linkgrpc` and `usergrpc` as functions
  from an id-parse result and repository answers to a gRPC status, with
  the repository calls made; the list handlers as loops (modules `LinkGrpc`,
  `UserGrpc`, errors in `GoErrors`);
- a few lemmas that follow a failure from the user service to the wire
  (module `EndToEnd`).

Where the intended behaviour of the service and its code disagree, the model follows the code:

- On a wrong Content-Type, `Unmarshal` returns 415 before it caps the body
  or registers the deferred `Close`, so that path does not release the body
  (`Decode.Unmarshal` states it leaves the body untouched).
- "Body too large" is not checked before parsing: it is the sixth test on
  the decoder's error, recognised by its text.
- A not-found or conflict from the repository is not reported as NotFound
  or AlreadyExists unless the repository's error type has its own `Is`
  method: `errors.Is` is asked against a freshly built `errors.New`
  value, which equals nothing else. With plain errors, GET /users/{id}
  for a missing user is a 500, not a 404 (`EndToEnd.GetUserFailureOnTheWire`).
- The documented fallback to a bare 500 when encoding fails works in
  `MarshalResponse` only. In `handleGRPCError` the status line has already
  been written, so the second `WriteHeader(500)` has no effect
  (`Respond.GRPCErrorOnUnwritten`).

## Model

| member | source | states |
|---|---|---|
| `Translate.ConvertGRPCCodeToHTTP` | internal/apigw/v1/handler.go:49-87 | The result is one of the twelve statuses of the table; a non-canonical code value gives 500; the result is 200 exactly for OK. |
| `Translate.GRPCCodeTable` | internal/apigw/v1/handler.go:49-103 | The exact HTTP status and envelope code for each of the 17 canonical codes. |
| `Translate.ConvertGRPCToErrorCode` | internal/apigw/v1/handler.go:90-103 | NotFound exactly for NotFound; BadRequest exactly for InvalidArgument, FailedPrecondition and OutOfRange; Conflict exactly for Aborted and AlreadyExists; InternalServerError for every other code. |
| `Translate.ConvertHTTPToErrorCode` | internal/apigw/v1/handler.go:105-119 | BadRequest exactly for 400, 413 and 415; Conflict exactly for 409; never NotFound; InternalServerError for every other status. |
| `Translate.ErrorCodeAgreesWithHTTP` | internal/apigw/v1/handler.go:49-103 | For every code: BadRequest iff 400, Conflict iff 409, NotFound iff 404, and a 500 always carries InternalServerError. |
| `Translate.HTTPTableRecoversErrorCode` | internal/apigw/v1/handler.go:49-119 | Reading the envelope code off the HTTP status gives the gRPC table's answer for every code except NotFound, because the HTTP table has no 404 entry. |
| `Grpc.Convert` | internal/apigw/v1/handler.go:35-36 | A status error keeps its status; any other error counts as Unknown. |
| `Strings.HasPrefix` | internal/apigw/v1/handler.go:157 | `strings.HasPrefix`: the string is at least as long as the prefix and begins with it (no ensures of its own; `Decode.JsonContentTypeIsPrefix` and `UnknownFieldWithoutSpace` use it). |
| `Strings.TrimPrefix` | internal/apigw/v1/handler.go:158 | The prefix is removed when present: prefix plus result is the input. Otherwise the input is returned unchanged. |
| `Strings.Decimal` | internal/apigw/v1/handler.go:150 | The `%d` rendering is a non-empty string of digits. It starts with '0' exactly when the number is 0, and then it is "0" alone, so there is never a leading zero. |
| `Strings.DecimalRoundTrip` | internal/apigw/v1/handler.go:150 | The digits read back as the number rendered. |
| `Strings.Quote` | internal/apigw/v1/handler.go:154-156 | `%q` puts the string between double quotes. |
| `Decode.Text` | internal/apigw/v1/handler.go:157-162 | The `Error()` text the text-based tests read: "json: unknown field " plus the quoted name, "EOF" for io.EOF, "http: request body too large" for the MaxBytesReader error, and an unrecognised error's own text (no ensures of its own; `ClassificationFollowsText` states its effect). |
| `Decode.DecodeFailure` | internal/apigw/v1/handler.go:145-166 | A decode error yields 400, 413 or 500. 413 comes exactly from the too-large error or an error with that text. 500 comes exactly from an unrecognised error whose text matches neither text test, and its message wraps that text. A syntax error carries the "malformed json at position " prefix, an unexpected EOF gives "malformed json", a type mismatch gives "invalid value " plus the quoted field and " at position ", an unknown field gives "unknown field " plus its quoted name, and an empty body gives "body must not be empty"; each of these is a 400. |
| `Decode.UnmarshalOutcome` | internal/apigw/v1/handler.go:134-174 | Status is in {200, 400, 413, 415, 500}; no error iff 200; 200 iff JSON Content-Type, successful decode and no remaining input; 415 iff the Content-Type test fails; a failed Content-Type test carries "content-type is not application/json"; a decoder error on a JSON request gives exactly DecodeFailure's status and message; remaining input after a good value gives 400 "body must contain only one JSON object". |
| `Decode.Unmarshal` | internal/apigw/v1/handler.go:134-174 | Returns the outcome above. With a JSON Content-Type the body is capped at 64,000 bytes and closed. Otherwise the body is neither capped nor closed. |
| `Decode.IsJsonContentType` | internal/apigw/v1/handler.go:135 | The Content-Type test: at least 16 characters, the first 16 being "application/json" (no ensures of its own; `Decode.JsonContentTypeIsPrefix` states what it means). |
| `Decode.JsonContentTypeIsPrefix` | internal/apigw/v1/handler.go:135-137 | The 16-byte test accepts exactly the headers that start with "application/json", whatever follows. |
| `Decode.ContentTypeExamples` | internal/apigw/v1/handler.go:135-137 | "application/json; charset=utf-8" passes; a truncated type and "text/plain" are refused. |
| `Decode.SyntaxMessageCarriesOffset` | internal/apigw/v1/handler.go:149-150 | A syntax error's message is the fixed prefix followed by exactly `Decimal(offset)`, Go's `%d` rendering with no leading zero, whose digits read back as the error's byte offset. |
| `Decode.UnknownFieldMessageNamesField` | internal/apigw/v1/handler.go:157-159 | An unknown-field error is a 400 whose message is "unknown field" followed by the quoted field name. |
| `Decode.ClassificationFollowsText` | internal/apigw/v1/handler.go:157-163 | Errors whose text reads like an unknown field or a too-large body are classified like those errors. io.EOF is "body must not be empty". An error whose text is merely "EOF" falls to 500. |
| `Decode.UnknownFieldWithoutSpace` | internal/apigw/v1/handler.go:157-159 | The prefix test has no trailing space but the trim does, so any error text that starts with "json: unknown field" and has no space right after it is echoed whole after "unknown field ". |
| `Decode.TypeMessageCarriesFieldAndOffset` | internal/apigw/v1/handler.go:153-156 | A type mismatch's message is "invalid value ", the quoted field and " at position ", followed by exactly `Decimal(offset)`, Go's `%d` rendering, whose digits read back as the error's byte offset. |
| `Respond.Response.WithHeader` | internal/apigw/v1/handler.go:122 | `Header().Set`: before the status line the key is set to the value; after it the response is unchanged. The status and body never change. |
| `Respond.Response.WithStatus` | internal/apigw/v1/handler.go:126-130 | `WriteHeader`: the first call fixes the status, and a later call leaves it as it was. The header and body never change. |
| `Respond.Response.WithBody` | internal/apigw/v1/handler.go:131 | `Write`: the value is appended to the body, and an unwritten status becomes an implicit 200. A written status is kept. |
| `Respond.ResponseWriter.SetHeader` | internal/apigw/v1/handler.go:122 | The writer's new state is the old one after `WithHeader`. |
| `Respond.ResponseWriter.WriteHeader` | internal/apigw/v1/handler.go:126-130 | The writer's new state is the old one after `WithStatus`. |
| `Respond.ResponseWriter.Write` | internal/apigw/v1/handler.go:131 | The writer's new state is the old one after `WithBody`. |
| `Respond.Response.Marshalled` | internal/apigw/v1/handler.go:121-132 | The response `MarshalResponse` leaves: JSON Content-Type, then a bare 500 when the value does not marshal, else the status and one body value (no ensures of its own; `MarshalResponseOnUnwritten` states it on a fresh response). |
| `Respond.Response.DecodeErrorWritten` | internal/apigw/v1/links.go:51-61 | What a handler writes after a failed `Unmarshal`: `Marshalled` with the decode status and an envelope whose code is read off that status and whose message is the error text (no ensures of its own; `DecodeFailureResponse` states it). |
| `Respond.Response.GRPCErrorWritten` | internal/apigw/v1/handler.go:32-47 | The response `handleGRPCError` leaves: JSON Content-Type, the translated status, then the envelope or an ineffective WriteHeader(500) (no ensures of its own; `GRPCErrorOnUnwritten` states it on a fresh response). |
| `Respond.MarshalResponse` | internal/apigw/v1/handler.go:121-132 | The new response is `old.Marshalled(...)`, that is, the old one after: set the JSON Content-Type, then either WriteHeader(500) alone or WriteHeader(status) followed by the body. |
| `Respond.HandleGRPCError` | internal/apigw/v1/handler.go:32-47 | The new response is `old.GRPCErrorWritten(...)`, that is, the old one after: set the JSON Content-Type, write the translated status, then the envelope (translated code, null message) or a second WriteHeader(500). |
| `Respond.MarshalResponseOnUnwritten` | internal/apigw/v1/handler.go:121-132 | On a fresh response: JSON Content-Type, and either exactly the requested status with one body value or a bare 500 with no body. |
| `Respond.GRPCErrorOnUnwritten` | internal/apigw/v1/handler.go:32-47 | On a fresh response the status is the translated one whether or not encoding succeeds. The body is the envelope with the translated code and a null message, or nothing. |
| `Respond.StatusIsWriteOnce` | internal/apigw/v1/handler.go:37-44 | Once the status line is written, neither helper changes the status, and MarshalResponse does not change the header. |
| `Respond.GRPCErrorIsNeverSuccess` | internal/apigw/v1/handler.go:32-47 | A gRPC error with a code other than OK is always written with a status of 400 or more. |
| `Respond.DecodeFailureResponse` | internal/apigw/v1/links.go:51-61 | A failed decode is written with its own status (400, 413, 415 or 500). The envelope carries the message, and its code is BadRequest, or InternalServerError for 500. |
| `LinksGateway.ConvertLinks` | internal/apigw/v1/links.go:27-42 | The HTTP list has the service list's length, and entry i is the conversion of service link i. |
| `LinksGateway.ApiLink` | internal/apigw/v1/links.go:103-112 | The HTTP link built field for field from the service's link. It has no ensures of its own; `ApiLinkIsLossless` states the mapping. |
| `LinksGateway.ApiLinkIsLossless` | internal/apigw/v1/links.go:30-39 | Each of the eight fields is copied to the field of the same name, and two links convert equally iff they are equal. |
| `LinksGateway.CreateLinkRequestOf` | internal/apigw/v1/links.go:63-71 | The CreateLink request built field for field from the decoded body. It has no ensures of its own; `LinkRequestsAreLossless` states the mapping. |
| `LinksGateway.UpdateLinkRequestOf` | internal/apigw/v1/links.go:132-140 | The UpdateLink request built field for field from the decoded body, the id included. It has no ensures of its own; `LinkRequestsAreLossless` states the mapping. |
| `LinksGateway.LinkRequestsAreLossless` | internal/apigw/v1/links.go:63-71 | Each field of the decoded body goes to the request field of the same name, for create and update alike. The requests are injective in the body. |
| `LinksGateway.LinksHandler.GetLinks` | internal/apigw/v1/links.go:17-44 | One ListLinks call. An RPC error is handled by handleGRPCError and nothing more. Otherwise 200 with the converted list. Written responses are given by `Response.GRPCErrorWritten`, `Marshalled` and `WithStatus`. |
| `LinksGateway.LinksHandler.PostLinks` | internal/apigw/v1/links.go:46-78 | A decode failure is written as (decode status, code read off it, error text) and no RPC is made. Otherwise one CreateLink call with the body's fields, then the RPC error or 201 with no body. On a JSON request the body is capped at 64,000 bytes and closed; on a 415 the body is left as it was. Written responses are given by `Response.DecodeErrorWritten`, `GRPCErrorWritten`, `Marshalled` and `WithStatus`. |
| `LinksGateway.LinksHandler.DeleteLinksId` | internal/apigw/v1/links.go:80-90 | One DeleteLink call with the path id unchanged; the RPC error or 204. Written responses are given by `Response.GRPCErrorWritten`, `Marshalled` and `WithStatus`. |
| `LinksGateway.LinksHandler.GetLinksId` | internal/apigw/v1/links.go:92-114 | One GetLink call with the path id unchanged; the RPC error or 200 with the converted link. Written responses are given by `Response.GRPCErrorWritten`, `Marshalled` and `WithStatus`. |
| `LinksGateway.LinksHandler.PutLinksId` | internal/apigw/v1/links.go:116-146 | Like PostLinks but UpdateLink and 204. The request's id is the body's id; the path id plays no part. The request body is capped and closed, or left as it was on a 415, as in the POST handler. Written responses are given by `Response.DecodeErrorWritten`, `GRPCErrorWritten`, `Marshalled` and `WithStatus`. |
| `LinksGateway.LinksHandler.GetLinksUserUserID` | internal/apigw/v1/links.go:148-174 | One GetLinkByUserID call with the path user id; the RPC error or 200 with the converted list. Written responses are given by `Response.GRPCErrorWritten`, `Marshalled` and `WithStatus`. |
| `UsersGateway.ConvertUsers` | internal/apigw/v1/users.go:26-38 | The HTTP list has the service list's length, and entry i is the conversion of service user i. |
| `UsersGateway.ApiUser` | internal/apigw/v1/users.go:95-102 | The HTTP user built field for field from the service's user. It has no ensures of its own; `ApiUserIsLossless` states the mapping. |
| `UsersGateway.ApiUserIsLossless` | internal/apigw/v1/users.go:28-36 | Each of the five fields, the password included, is copied to the field of the same name. Two users convert equally iff they are equal. |
| `UsersGateway.CreateUserRequestOf` | internal/apigw/v1/users.go:59-64 | The CreateUser request built field for field from the decoded body. It has no ensures of its own; `UserRequestsAreLossless` states the mapping. |
| `UsersGateway.UpdateUserRequestOf` | internal/apigw/v1/users.go:123-128 | The UpdateUser request built field for field from the decoded body, the id included. It has no ensures of its own; `UserRequestsAreLossless` states the mapping. |
| `UsersGateway.UserRequestsAreLossless` | internal/apigw/v1/users.go:59-64 | The id, username and password of the decoded body go to the request fields of the same name, for create and update alike. The requests are injective in the body. |
| `UsersGateway.UsersHandler.GetUsers` | internal/apigw/v1/users.go:17-40 | One ListUsers call; the RPC error, or 200 with the converted list. Written responses are given by `Response.GRPCErrorWritten`, `Marshalled` and `WithStatus`. |
| `UsersGateway.UsersHandler.PostUsers` | internal/apigw/v1/users.go:42-71 | A decode failure is written as (decode status, code read off it, error text) and no RPC is made. Otherwise one CreateUser call, then the RPC error or 201. On a JSON request the body is capped at 64,000 bytes and closed; on a 415 the body is left as it was. Written responses are given by `Response.DecodeErrorWritten`, `GRPCErrorWritten`, `Marshalled` and `WithStatus`. |
| `UsersGateway.UsersHandler.DeleteUsersId` | internal/apigw/v1/users.go:73-83 | One DeleteUser call with the path id unchanged; the RPC error or 204. Written responses are given by `Response.GRPCErrorWritten`, `Marshalled` and `WithStatus`. |
| `UsersGateway.UsersHandler.GetUsersId` | internal/apigw/v1/users.go:85-104 | One GetUser call with the path id unchanged; the RPC error or 200 with the converted user. Written responses are given by `Response.GRPCErrorWritten`, `Marshalled` and `WithStatus`. |
| `UsersGateway.UsersHandler.PutUsersId` | internal/apigw/v1/users.go:106-134 | Like PostUsers but UpdateUser and 204. The request's id is the body's id; the path id plays no part. The request body is capped and closed, or left as it was on a 415, as in the POST handler. Written responses are given by `Response.DecodeErrorWritten`, `GRPCErrorWritten`, `Marshalled` and `WithStatus`. |
| `GoErrors.IsFresh` | internal/link/linkgrpc/handler.go:82 | `errors.Is(err, errors.New(target))`: a freshly built target equals nothing, so the test holds only for an error whose own `Is` method accepts that target text (no ensures of its own; the CreateX/GetX iff clauses and `PlainNeverMatchesFresh` rest on it). |
| `GoErrors.PlainNeverMatchesFresh` | internal/link/linkgrpc/handler.go:82 | A plain error never matches `errors.Is` against a freshly built error. |
| `LinkGrpc.CreateLink` | internal/link/linkgrpc/handler.go:62-89 | Codes are only InvalidArgument, AlreadyExists or Internal. A bad ObjectID means InvalidArgument and no repository call. Otherwise exactly one Create call with the request's fields. Success iff Create succeeds. AlreadyExists iff Create's error matches a fresh "conflict"; every repository error keeps its text. |
| `LinkGrpc.GetLink` | internal/link/linkgrpc/handler.go:91-119 | Codes are only InvalidArgument, NotFound or Internal. A bad ObjectID means InvalidArgument and no call. Otherwise one FindByID call. Success iff FindByID succeeds, and it gives the stored link converted. NotFound iff FindByID's error matches a fresh "not found"; every repository error keeps its text. |
| `LinkGrpc.UpdateLink` | internal/link/linkgrpc/handler.go:121-145 | InvalidArgument iff the id is bad, with no call; otherwise one Update call; every repository error is Internal, with the repository error's text as its message. |
| `LinkGrpc.DeleteLink` | internal/link/linkgrpc/handler.go:147-162 | InvalidArgument iff the id is bad, with no call; otherwise one Delete call; every repository error is Internal, with the repository error's text as its message. |
| `LinkGrpc.ConvertLinks` | internal/link/linkgrpc/handler.go:38-53 | One protobuf link per stored link, same length, same order. |
| `LinkGrpc.PbLink` | internal/link/linkgrpc/handler.go:109-118 | The protobuf link: the id in hex, the timestamps in RFC 3339, and the other fields copied. It has no ensures of its own; `LinkConversionsKeepFields` states the mapping. |
| `LinkGrpc.CreateLinkReqOf` | internal/link/linkgrpc/handler.go:72-80 | The repository's create request: the parsed id and the request's other fields. It has no ensures of its own; `LinkConversionsKeepFields` states the mapping. |
| `LinkGrpc.UpdateLinkReqOf` | internal/link/linkgrpc/handler.go:131-139 | The repository's update request: the parsed id and the request's other fields. It has no ensures of its own; `LinkConversionsKeepFields` states the mapping. |
| `LinkGrpc.LinkConversionsKeepFields` | internal/link/linkgrpc/handler.go:72-139 | Every field goes to the field of the same name. The stored id is rendered in hex and the timestamps in RFC 3339; the repository requests carry the parsed id. |
| `LinkGrpc.ListLinks` | internal/link/linkgrpc/handler.go:164-192 | One FindAll call; a repository error is Internal; otherwise every stored link converted, in order. |
| `LinkGrpc.GetLinkByUserID` | internal/link/linkgrpc/handler.go:28-56 | One FindByUserID call with the user id unvalidated and unchanged; errors are Internal; otherwise the converted list. |
| `LinkGrpc.PlainRepositoryErrorsAreInternal` | internal/link/linkgrpc/handler.go:81-107 | With plain repository errors, every failure after a valid id is Internal. AlreadyExists and NotFound are never produced. |
| `UserGrpc.CreateUser` | internal/user/usergrpc/handler.go:28-54 | Codes are only InvalidArgument, AlreadyExists or Internal. A bad UUID means InvalidArgument and no repository call. Otherwise one Create call. Success iff Create succeeds. AlreadyExists iff Create's error matches a fresh "conflict"; every repository error keeps its text. |
| `UserGrpc.GetUser` | internal/user/usergrpc/handler.go:56-82 | Codes are only InvalidArgument, NotFound or Internal. A bad UUID means no call. Otherwise one FindByID call. Success gives the stored user converted (id, username, password, both timestamps). Success iff FindByID succeeds. NotFound iff FindByID's error matches a fresh "not found"; every repository error keeps its text. |
| `UserGrpc.UpdateUser` | internal/user/usergrpc/handler.go:84-106 | InvalidArgument iff the UUID is bad, with no call. Otherwise one repository Create call with the request's fields, and every error is Internal, with the repository error's text as its message. |
| `UserGrpc.DeleteUser` | internal/user/usergrpc/handler.go:108-126 | InvalidArgument iff the UUID is bad, with no call; otherwise one DeleteByUserID call; every error is Internal, with the repository error's text as its message. |
| `UserGrpc.ListUsers` | internal/user/usergrpc/handler.go:128-156 | One FindAll call; an error is Internal; otherwise every stored user converted in order, passwords included. |
| `UserGrpc.PbUser` | internal/user/usergrpc/handler.go:75-81 | The protobuf user: the id as a string, the timestamps in RFC 3339, and the username and password copied. It has no ensures of its own; `UserConversionKeepsFields` states the mapping. |
| `UserGrpc.UserConversionKeepsFields` | internal/user/usergrpc/handler.go:75-81 | Each field goes to the field of the same name: createdAt to createdAt, updatedAt to updatedAt, and the password included. |
| `UserGrpc.UpdateUserIsCreateWithoutConflict` | internal/user/usergrpc/handler.go:84-106 | UpdateUser makes exactly CreateUser's repository call and succeeds exactly when CreateUser would. Where CreateUser says AlreadyExists, UpdateUser says Internal. |
| `UserGrpc.PlainRepositoryErrorsAreInternal` | internal/user/usergrpc/handler.go:45-73 | With plain repository errors, every failure after a valid UUID is Internal. |
| `EndToEnd.GetUserFailureOnTheWire` | internal/user/usergrpc/handler.go:56-82 | A failed GetUser reaches the client as 400, 404 or 500. A bad UUID gives 400 with BadRequest; a plain repository error gives 500 with InternalServerError. A 404 requires an error matching a fresh "not found". |
| `EndToEnd.CreateUserFailureOnTheWire` | internal/user/usergrpc/handler.go:28-54 | A failed CreateUser reaches the client as 400, 409 or 500: 409 iff the service said AlreadyExists, 400 iff the UUID is bad. |

## Left out

- JSON encoding and decoding (`encoding/json`) are not modelled. A decoder run is given as its outcome: the error kind or the decoded value, plus whether `More` reports remaining input. A response body is the sequence of values handed to the encoder, so the bytes, the encoder's trailing newline and the JSON names of fields are not modelled.
- Whether `json.Marshal` or `Encode` succeeds is a parameter (`marshals`) of every writing operation.
- Nothing ties the decoder's too-large error to the body's length. The model records only that the body is wrapped with a 64,000-byte cap.
- `net/http` internals are not modelled: header-key canonicalisation (keys are taken as written), `MaxBytesReader`'s signal to close the connection, special handling of 1xx statuses, and write errors. `MarshalResponse` ignores them (internal/apigw/v1/handler.go:131). In `handleGRPCError` a failed write surfaces as an `Encode` error and takes the `WriteHeader(500)` branch (handler.go:38-45); the model folds it into `encodes == false` and records no body, although bytes may already have gone out. The ineffective second `WriteHeader(500)` also makes `net/http` log a "superfluous response.WriteHeader call" line; logging is not modelled.
- The HTTP server's own closing of request bodies is not modelled.
- Context deadlines and `defer cancel()` in every gRPC handler serve timeouts and concurrency; there is no sequential behaviour to state.
- `uuid.Parse`, `UUID.String`, `primitive.ObjectIDFromHex`, `ObjectID.Hex` and RFC 3339 time formatting are library code that is not visible. They are uninterpreted functions, fields of a `Foreign` value.
- The repositories (MongoDB and the database layer) and the gRPC transport are oracles. Each answer is a fixed function of the request, independent of earlier calls. The gateway's client and the service handlers are therefore not linked by shared state.
- GoErrors.IsFresh: `errors.Is` is modelled through the error's own `Is` method only; errors that wrap other errors (`Unwrap` chains) are not modelled.
- Strings.Quote: `%q`'s escaping of quotes, backslashes and non-printable bytes is not modelled; the string is only put between double quotes.
- Go strings are byte strings; here each byte is one `char`.
- The constructors `New`, `newLinksHandler` and `newUsersHandler`, the embedding of the two handlers in one struct, and `mustEmbedUnimplementedLinkServiceServer` are wiring only.
