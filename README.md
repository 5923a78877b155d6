# A verified model of the wtf dial service

The wtf repository manages one kind of record, the *dial*: an ID, a secret
token, a name, a level and a modification time. The dial can be stored in an
embedded BoltDB database, or reached over HTTP through a JSON API. This
project models the core of that system in Dafny and proves properties of the
model:

- `errors.dfy` (module `Errors`): the sentinel errors of package wtf. A Go
  `error` is the datatype `Err`. A `wtf.Error` is compared by its string;
  any other error never equals one. The module proves the sentinel messages
  distinct and proves that rebuilding `wtf.Error(msg)` from a message gives
  back the same sentinel.
- `wtf.dfy` (module `Wtf`): the `Dial` record. `Wire` says what survives a
  JSON exchange: the Token never does. `DialCell` is a caller-owned
  `*wtf.Dial`, which both `CreateDial`s update in place.
- `bolt_dial_service.dfy` (module `BoltDialService`): the BoltDB store. It is
  a class that owns the "Dials" bucket as a map, plus the client's
  replaceable `Now` clock. `Dial`, `CreateDial` and `SetLevel` keep the
  bucket invariant: every record sits under its own non-empty ID. Their
  postconditions state the validation order, every early return (which
  rolls back and leaves the bucket unchanged) and the single key a
  successful call writes. The storage calls that can fail (Begin,
  marshal-and-Put, Commit) enter as a `TxFaults` parameter. This makes the
  rollback paths part of the model. One such path: a failing Put after the
  clock was read still leaves the new ModTime in the caller's struct.
- `bolt_session.dfy` (module `BoltSession`): the session of the per-user
  authenticator design. It holds the token and the cached user, with the
  authenticator as a function. It also has `itob`, the 8-byte big-endian key
  encoder, proved to produce byte i = `(v >> (56 - 8i)) & 0xFF` and to decode
  back to `v mod 2^64`.
- `http_handler.dfy` (module `HttpHandler`): the router prefix test, `Error`
  (which hides every 500 behind "internal error"), `NotFound` and the
  encoder fallback.
- `http_dial_service.dfy` (module `HttpDialService`): the GET, POST and PATCH
  handlers, with their status tables, and the client operations that read
  the `err` field back. It also holds the composed lemmas from server to
  client. An error that a route maps to a status other than 500 comes back
  to the client as the same sentinel. Every other error comes back as
  `ErrInternal`.

Responses, requests, the network and the service behind a handler are
abstract. A `Response` is a status and a body as the client decodes it. A
handler gets what the wrapped service returned, as a value or as a function
of the arguments. A client operation gets the round trip as a function from
request to response.

Three details of the code that the model keeps:
- The client never looks at the status code. It rebuilds any non-empty
  `err` string as `wtf.Error(err)`, known or not.
- It returns transport and decode failures as they are, not as
  `ErrInternal`.
- `CreateDial` checks for a nil dial before it checks for an empty ID.

## Model

| member | source | states |
|---|---|---|
| `Errors.Message` | errors.go:4-15 | every sentinel message is non-empty, and exactly `Internal` has the message "internal error" |
| `Errors.MessagesDistinct` | errors.go:4-15 | the six sentinel messages are pairwise distinct |
| `Errors.ErrorString` | errors.go:18-21 | `Error(s).Error()` returns `s` unchanged, so rebuilding `Error` from it gives back the same value |
| `Errors.SentinelOf` | errors.go:4-21 | the sentinel that a rebuilt `wtf.Error(m)` equals, found exactly when some sentinel equals it |
| `Errors.RebuildSentinel` | errors.go:18-21 | for every sentinel `e`, `Error(e.Error()) == e`, and the lookup from its message returns that sentinel |
| `Wtf.Wire` | wtf.go:12-18 | the JSON form of a dial has an empty Token and keeps ID, Name, Level and ModTime |
| `BoltDialService.DialService.constructor` | bolt/client.go:24-28 | a client over an empty bucket with an injected clock satisfies the ID-equals-key invariant |
| `BoltDialService.DialService.Dial` | bolt/dial_service.go:17-33 | none when the key is absent, and otherwise the stored record, whose ID is the key; a failed Begin is returned; nothing is changed |
| `BoltDialService.DialService.CreateDial` | bolt/dial_service.go:36-68 | nil gives ErrDialRequired, then an empty ID gives ErrDialIDRequired, then an existing key gives ErrDialExists, each with the store, the clock and the caller's struct unchanged; otherwise the caller's ModTime is set to the clock's next reading, and on commit only key `d.ID` changes, to `d`; the invariant is kept |
| `BoltDialService.DialService.SetLevel` | bolt/dial_service.go:71-106 | an absent ID gives ErrDialNotFound and a different token gives ErrUnauthorized, both with nothing written; on a match and commit only that record's Level and ModTime change, with ModTime set to `Now()`; storage failures roll back; the invariant makes the write land on the key that was read |
| `BoltDialService.TwoDialsAreIndependent` | bolt/dial_service_test.go:57-76 | two dials updated separately each keep their own level; a wrong token and a duplicate create are refused |
| `BoltSession.Session.SetAuthToken` | bolt/session.go:33-35 | only `authToken` changes; a cached user stays cached |
| `BoltSession.Session.Authenticate` | bolt/session.go:38-54 | a cached user is returned without consulting the authenticator; otherwise the authenticator is asked with the current token; on its error that error is returned and nothing is cached; on success its user is cached and returned |
| `BoltSession.AuthenticateIsCached` | bolt/session.go:50-53 | after a call has returned a user, a later call returns the same user even if the token was changed in between |
| `BoltSession.ToUint64` | bolt/session.go:65 | `uint64(v)` of a 64-bit int is `v` for non-negative `v` and `v + 2^64` for negative `v` |
| `BoltSession.BigEndianByte` | bolt/session.go:63-67 | byte i of the n-byte big-endian encoding of u is `u / 256^(n-1-i) mod 256`, i.e. `(u >> 8(n-1-i)) & 0xFF` |
| `BoltSession.ReadBigEndianInverse` | bolt/session.go:59-67 | reading the n-byte big-endian encoding of u back gives `u mod 256^n` |
| `BoltSession.Itob` | bolt/session.go:63-67 | a fresh 8-byte array holding the big-endian encoding of `uint64(v)`, which decodes back to `v mod 2^64` |
| `HttpHandler.Error` | http/handler.go:29-41 | writes exactly the given status; for 500 the body's `err` is "internal error" whatever the error was; for any other code it is the error's own message |
| `HttpHandler.NotFound` | http/handler.go:49-52 | status 404 and the body `{}` followed by a newline |
| `HttpHandler.PageNotFound` | http/handler.go:24 | the generic not-found answer has status 404 and a non-JSON body |
| `HttpHandler.EncodeJSON` | http/handler.go:55-59 | a successful encoding is a 200 carrying the value with tokens removed; a failed one falls back to `Error` with 500 |
| `HttpHandler.HasPrefix` | http/handler.go:21 | `strings.HasPrefix` holds exactly when the prefix is a prefix of the string |
| `HttpHandler.ServeHTTP` | http/handler.go:20-26 | the dial handler answers exactly when the path starts with "/api/dials"; any other path gets the generic not-found |
| `HttpHandler.InvalidJsonIsNotSentinel` | http/handler.go:12 | ErrInvalidJSON's message "invalid json" equals no domain sentinel |
| `HttpDialService.HandleGetDial` | http/dial_service.go:38-50 | a service error gives 500 with "internal error"; a nil dial gives 404 with body `{}`; otherwise 200 with the dial without its token |
| `HttpDialService.PostDialInput` | http/dial_service.go:65-67 | the dial handed to CreateDial takes its Token from the request's `token` and has a zero ModTime |
| `HttpDialService.PostStatus` | http/dial_service.go:70-79 | nil gives 200; ErrDialRequired and ErrDialIDRequired, and only they, give 400; ErrDialExists, and only it, gives 409; anything else gives 500 |
| `HttpDialService.HandlePostDial` | http/dial_service.go:58-80 | invalid JSON gives 400 with "invalid json"; a CreateDial error gives PostStatus with the error body; success gives 200 with the dial as CreateDial left it, without its token |
| `HttpDialService.PatchStatus` | http/dial_service.go:102-111 | nil gives 200; ErrDialNotFound, and only it, gives 404; ErrUnauthorized, and only it, gives 401; anything else gives 500 |
| `HttpDialService.HandlePatchDial` | http/dial_service.go:93-112 | SetLevel is called with the ID, token and level of the body, not the URL parameter; its error picks PatchStatus; success gives 200 with an empty body |
| `HttpDialService.ReadBody` | http/dial_service.go:144-147 | transport failures are returned raw; a JSON body is read as it is; the raw body `{}` reads as an empty object |
| `HttpDialService.ResponseError` | http/dial_service.go:146-150 | a non-empty `err` field becomes `wtf.Error(err)`; an empty one is success |
| `HttpDialService.ClientDial` | http/dial_service.go:133-152 | an empty `err` gives success with the body's dial, so a `{}` body yields (nil, nil) |
| `HttpDialService.ClientPostRequest` | http/dial_service.go:164-168 | the POST body carries the dial without its token and the caller's token as a field of its own |
| `HttpDialService.ClientSetLevel` | http/dial_service.go:196-228 | sends `{id, token, level}` as the PATCH body and returns the error read back from the response; through the PATCH handler (`PatchRoundTrip`) 404 and 401 errors come back as themselves, every other error as ErrInternal, and success as nil |
| `HttpDialService.ClientCreateDial` | http/dial_service.go:155-193 | nil gives ErrDialRequired without a request; an error leaves the caller's dial unchanged; success overwrites it with the server's copy and then puts the caller's original token back |
| `HttpDialService.ErrorResponseRoundTrip` | http/handler.go:33-40 | an error response reaches the client as ErrInternal behind a 500, and otherwise as a `wtf.Error` with the original message |
| `HttpDialService.PostMappedErrorsAreSentinels` | http/dial_service.go:73-76 | every error POST maps below 500 is a sentinel with a non-empty message |
| `HttpDialService.PatchMappedErrorsAreSentinels` | http/dial_service.go:105-108 | every error PATCH maps below 500 is a sentinel with a non-empty message |
| `HttpDialService.GetRoundTrip` | http/dial_service.go:145-151 | through server and client, a service or encoding error comes back as ErrInternal, a missing dial as (nil, nil), a found dial without its token |
| `HttpDialService.PostRoundTrip` | http/dial_service.go:164-190 | the server creates the caller's dial with the caller's token; 400 and 409 errors come back unchanged and all others as ErrInternal; on success the caller ends up with the created dial under its own token |
| `HttpDialService.PatchRoundTrip` | http/dial_service.go:219-227 | through server and client, 404 and 401 errors come back unchanged, all others as ErrInternal, and success as nil; the PATCH success body is an empty struct, whose encoding cannot fail |
| `HttpDialService.PostSentinelTable` | http/dial_service.go:70-79 | ErrDialRequired, ErrDialIDRequired and ErrDialExists reach a POST client as themselves; every other sentinel reaches it as ErrInternal |
| `HttpDialService.PatchSentinelTable` | http/dial_service.go:102-111 | ErrDialNotFound and ErrUnauthorized reach a PATCH client as themselves; every other sentinel reaches it as ErrInternal |

## Left out

- The record codec (bolt/internal/internal.go): it wraps a protobuf library that is not part of this model. It also encodes an integer ID and a UserID, and no Token, which does not match the current `Dial`. The bucket holds decoded `Dial` values, Token included. So the decode failures at bolt/dial_service.go:29-30 and bolt/dial_service.go:85-86 are not modelled.
- `Client.Open` and `Client.Close` (bolt/client.go:31-59): file I/O and the 1-second lock timeout. The bucket is assumed to exist.
- BoltDB isolation and concurrent writers: each call is atomic and sequential.
- JSON encoding and decoding, net/http, `url.QueryEscape` and httprouter's method-and-path dispatch inside the dial handler. A decoded request is an `Option` (None when the JSON is invalid). The encoder's failure is a parameter. Any raw response body other than `{}` decodes to one opaque error, `UndecodableBody`.
- Logging (the `Logger` calls in `Error` and the handlers).
- `Level` (float64) and `ModTime` (time.Time) are opaque and only copied. Floating-point values the encoder rejects (NaN) enter only through the encoder-failure parameter.
- `HttpDialService.HandlePostDial`: a request whose JSON has no `dial` makes the handler dereference nil (http/dial_service.go:65-66). This panic is excluded by a precondition.
- `HttpDialService.ClientCreateDial`: a success response without a dial would panic at http/dial_service.go:189. This is excluded by a precondition. `PostRoundTrip` proves that this server never sends such a response.
- The session's `db`, `now` and `dialService` fields, `newSession` and `Session.DialService` (bolt/session.go:12-30, bolt/session.go:57). They belong to the authenticator design. `newSession` sets a `session` field that the current `DialService` struct does not have.
- The `wtf.Authenticator` implementation: the session takes it as a function.
- `Itob` assumes Go's `int` is 64 bits wide.
- The ID assignment and UserID ownership in bolt/dial_service_test.go belong to the authenticator design. They are not modelled.
- Go strings are byte sequences; the model uses Dafny's `seq<char>` for IDs, tokens, paths and messages. Equality and the ASCII prefix "/api/dials" behave the same either way, but IDs or tokens that are not valid UTF-8 cannot be represented.
