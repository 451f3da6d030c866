# proxyurl `/fetch` relay, modelled in Dafny

The gateway has one route, `GET /fetch?route=<percent-encoded absolute URL>`.
The handler checks the `route` value in a fixed order: present, decodable,
an absolute URL, scheme `http` or `https`. It then takes the user-info out of
the URL and turns a non-empty username into a Basic-Authorization
credential. It sends a GET for the credential-free URL through a proxied
HTTP client. Finally it relays the upstream header multimap, the status and
at most 10 MiB of the body to the caller. Every failure before the relay is
answered with exactly one status and one fixed message, written as
`http.Error` writes it (message plus newline).

Modules:

- `Wrappers` (wrappers.dfy): `Option`, `Result`.
- `Escaping` (escaping.dfy): `url.QueryUnescape` as a function, with
  `url.QueryEscape` as its inverse. Go strings are byte strings: in the
  model each character of a string stands for one byte, and `Byte` (a
  character below 256) is what `url.QueryEscape` takes.
- `Target` (target.dfy): the URL record, the failure kinds with their
  statuses and messages, the validation chain `Classify`, and the
  credential split `Prepare`. `Plan` composes the two.
- `Response` (response.dfy): the caller's `ResponseWriter` as a class with
  fields `header`, `sent` and `body`. `sent` holds the status line together
  with the header as it was when the first `WriteHeader` ran. The class has
  the header relay loops (`AddValues`, `AddAll`) and the capped body copy
  (`CopyLimited`). The pure specification functions are `Merge` and `Prefix`.
- `Fetch` (fetch.dfy): the handler `Serve`, proved against the pure
  `Respond` function, plus the lemmas about whole responses.
- `Startup` (startup.dfy): the config-path and listen-address defaults,
  `loadConfig`'s check, and the start-up sequence `Boot`.

Collaborators the model cannot see are parameters:

- `parse` is `url.Parse`; Go's parser also lower-cases the scheme.
- `builds` says whether `http.NewRequestWithContext` accepts the outbound
  URL's serialisation.
- `client` is `client.Do`.
- `read` gives the outcome of opening and decoding the config file.
- `parseProxy` is `url.Parse` applied to the proxy address.
- The environment values (`CONFIG_PATH`, `PORT`) are arguments.
- The inbound query is the map `r.URL.Query()` returns.

Go's `map` iteration order is free: `AddAll` picks each key with `:|`, so
its proof covers every order.

Two rules of the code are worth spelling out:

- A URL is rejected as not absolute when its scheme or its host is empty
  (main.go:75).
- The `route` value is decoded twice: once by `r.URL.Query()` and once by
  `url.QueryUnescape` (main.go:62, 68). The model starts from the
  already-parsed query, so `Unescape` is the second decoding. Query parsing
  silently drops a pair whose raw value has a bad escape. So a raw
  `route=%zz` is answered 400 "missing route query parameter", not "invalid
  url encoding for route". `InvalidEncoding` arises only when the once-decoded
  value is still malformed (raw `route=%25zz`). Every statement below about
  "the route" means the once-decoded value. A target escaped once by the
  caller therefore reaches `Unescape` as plain text (`PlainTargetIsFetched`).

## Model

| member | source | states |
|---|---|---|
| `Escaping.Unescape` | main.go:68-72 | decoding never lengthens the value; `None` is Go's escape error |
| `Escaping.UnescapeFailsIff` | main.go:68-72 | decoding fails exactly when some `%` is not followed by two hex digits (both directions) |
| `Escaping.UnescapePlain` | main.go:68 | a value without `%` or `+` decodes to itself |
| `Escaping.UnescapeEscape` | main.go:68-72 | decoding a query-escaped byte string gives back that string |
| `Target.Status` | main.go:64-102 | it is 400 exactly for the four input failures, 500 for a request-construction failure and 502 for a transport failure |
| `Target.Message` | main.go:64-102 | every failure has a non-empty message; a transport failure's is "upstream request failed: " followed by exactly the error text |
| `Target.Username` | main.go:84 | Go's nil-safe `User.Username()`: "" without user-info, else the username |
| `Target.Password` | main.go:85 | Go's nil-safe `User.Password()`: "" without user-info or without a password, else the password |
| `Target.QueryGet` | main.go:62 | the first value of `route`, or "" when it is absent or has no value |
| `Target.Classify` | main.go:62-82 | an accepted target is the parse of the decoded route and has host non-empty and scheme `http`/`https`; every rejection is a 400 |
| `Target.FirstFailureDecides` | main.go:62-82 | each failure happens iff all earlier checks passed and its own check failed; success iff all four pass |
| `Target.MissingRouteDecidesAlone` | main.go:62-66 | with no route value the outcome is `MissingParameter` whatever the parser and request constructor |
| `Target.BadEscapeIsInvalidEncoding` | main.go:68-72 | a `%` without two hex digits anywhere in the route yields `InvalidEncoding` |
| `Target.RemoveEmptyPort` | main.go:90 | as `http.NewRequestWithContext` does to the parsed host: a trailing `:` (empty port) is dropped and nothing else changes; the result is empty iff the host was "" or ":" |
| `Target.RequestUrl` | main.go:87-90 | the URL the built request carries: no user-info, the host with an empty port removed, every other component of the target kept |
| `Target.Prepare` | main.go:84-98 | the outbound request is a GET to `RequestUrl` of the target (user-info cleared, empty port dropped); Basic auth is attached iff the username is non-empty, with that username and the (possibly empty) password; construction failure iff the builder refuses, giving `RequestBuildFailure` |
| `Target.Plan` | main.go:62-98 | a planned request exists only for a validated target and names its `RequestUrl`: no user-info, an http/https scheme, and an empty host exactly when the target's host was ":" |
| `Target.CredentialSplitRestores` | main.go:84-90 | with a username and a password set, the outbound URL plus the extracted credentials restore the target, up to the dropped empty port |
| `Target.EmptyPortIsDropped` | main.go:90 | a target with host `h:` that the builder accepts is requested at host `h`, all else of the credential-free target unchanged |
| `Target.PasswordAloneSendsNoAuth` | main.go:84-98 | a password with an empty username attaches no credentials |
| `Response.Merge` | main.go:107-111 | a key is present after the relay iff it was before or upstream sent at least one value for it |
| `Response.MergeAppends` | main.go:107-111 | per key, the caller's values are its prior values followed by all upstream values in their order |
| `Response.MergeKeepsOtherKeys` | main.go:107-111 | keys upstream did not send keep their prior values |
| `Response.MergeNothing` | main.go:107-111 | relaying an empty upstream header leaves the header unchanged |
| `Response.Commit` | main.go:112 | the first status written is kept, with the header of that moment |
| `Response.ResponseWriter.AddHeader` | main.go:109 | one value is appended to the key's list; nothing else changes |
| `Response.ResponseWriter.WriteHeader` | main.go:112 | the first call fixes the status and the header sent with it |
| `Response.ResponseWriter.Write` | main.go:114 | bytes are appended to the body, committing status 200 if none was written |
| `Response.ResponseWriter.Error` | main.go:64-102 | `http.Error`: the status, then the message and a newline |
| `Response.ResponseWriter.AddValues` | main.go:108-110 | every value of one key is appended in order |
| `Response.ResponseWriter.AddAll` | main.go:107-111 | whatever order the keys are visited in, the new header is `Merge` of the old one and the upstream header; status and body unchanged |
| `Response.ResponseWriter.CopyLimited` | main.go:114-116 | the body grows by exactly the first min(len, limit) upstream bytes; the reported error is the stream's error iff the stream ended before the limit |
| `Response.Prefix` | main.go:114 | the copied part is no longer than the limit nor the body |
| `Response.PrefixIsLongestFit` | main.go:114 | a short body is copied whole, a long one yields exactly `limit` bytes, and the copy is always a prefix |
| `Fetch.Exchange` | main.go:62-104 | the handler relays the client's answer iff planning succeeded and the client answered; otherwise the plan's failure, or `UpstreamUnreachable` with the transport error text |
| `Fetch.Serve` | main.go:61-117 | the caller's response becomes what `Respond` prescribes: the failure's status with its message and a newline, or the merged header sent with the upstream status followed by the body capped at 10 MiB; the logged error is the body's read error exactly when the body ended before the cap |
| `Fetch.RejectionResponse` | main.go:62-104 | on a fresh response a failure writes only its status and its message plus newline, with no upstream header |
| `Fetch.MissingRouteResponse` | main.go:62-66 | no route: 400 "missing route query parameter\n", whatever the parser, constructor and upstream |
| `Fetch.BadEscapeResponse` | main.go:68-72 | a route with a malformed escape at any position: 400 "invalid url encoding for route\n", no upstream header |
| `Fetch.NotAbsoluteResponse` | main.go:74-78 | a decodable route whose decoding does not parse, or parses without a scheme or a host: 400 "route must be a valid absolute URL\n" |
| `Fetch.UnsupportedSchemeResponse` | main.go:79-82 | an absolute target whose scheme is neither http nor https: 400 "unsupported scheme (only http/https allowed)\n" |
| `Fetch.RejectionIgnoresUpstream` | main.go:62-94 | a request rejected before dispatch gives a response independent of the client, and nothing is logged |
| `Fetch.BuildFailureResponse` | main.go:90-94 | a validated target whose outbound URL the constructor refuses is answered 500 "failed to build request\n" with no header, whatever the client |
| `Fetch.TransportFailureResponse` | main.go:100-104 | a transport error gives 502 with body "upstream request failed: " + error text + newline and no upstream headers |
| `Fetch.SuccessfulRelay` | main.go:107-114 | the upstream status goes out verbatim with the fully merged header (set before `WriteHeader`), and the body is the prefix of length min(len, 10485760) |
| `Fetch.BodyErrorIsOnlyLogged` | main.go:114-116 | an upstream body error leaves the response as a clean end would |
| `Fetch.EscapedTargetIsFetched` | main.go:68-98 | a route value still query-escaped after query parsing decodes to its fetchable target, which is requested at its `RequestUrl` (no user-info, no empty port), with credentials iff it names a user |
| `Fetch.PlainTargetIsFetched` | main.go:62-98 | a route value without `%` or `+` (a target the caller escaped once) is requested as itself without user-info and without an empty port, with credentials iff it names a user |
| `Startup.ConfigPath` | main.go:39-42 | `CONFIG_PATH` when non-empty, otherwise "config.json" |
| `Startup.ListenAddress` | main.go:119-122 | ":" followed by `PORT` when non-empty, otherwise by "8080" |
| `Startup.LoadConfig` | main.go:20-35 | accepted iff decoded with a non-empty `proxy_url`; otherwise Go's error text for open, decode or missing proxy |
| `Startup.Boot` | main.go:38-52 | start-up succeeds iff the config loads from the chosen path and its proxy parses, and then keeps that config and that proxy; a load failure gives "failed to load <path>: <error>", a proxy parse failure "invalid proxy url: <error>" |

## Left out

- The HTTP transport, the fixed proxy and the 45 s timeout (main.go:54-59) are replaced by the `client` parameter. `ListenAndServe` (main.go:125) is left out too: it is network code. Log output is not produced; `Serve` returns the body-copy error it would log, and `Boot` returns the fatal message.
- Propagation of the inbound request's context (main.go:90) is left out: it is about cancellation, not decision logic.
- `resp.Body.Close()` (main.go:105) is left out. In `Serve` the body copy is the last step.
- `url.Parse`'s grammar and `NewRequestWithContext`'s own checks are parameters (`parse`, `builds`). The `Url` record keeps scheme, opaque part, user-info, host, path, raw query and fragment. Go's other URL fields are assumed to be copied unchanged along with these.
- Target.Prepare: `URL.String()` is not modelled. Go builds the request from `reqURL.String()` and parses it back (main.go:90). After that re-parse `NewRequestWithContext` drops an empty port from the host (`example.com:` becomes `example.com`), and the model does that too (`RemoveEmptyPort`). Beyond this, the model takes the outbound URL to be the credential-free record, which assumes the serialisation parses back to the same record. The builder is asked about the record before the empty port is dropped, as Go parses before it normalises.
- `SetBasicAuth`'s base64 encoding is left out: the outbound request carries the username/password pair.
- Response.ResponseWriter.Error: does not model the Content-Type, X-Content-Type-Options and Content-Length changes `http.Error` makes to the header.
- Response.ResponseWriter.AddHeader: does not canonicalise the key as `Header.Add` does. Keys of a parsed upstream response are already canonical, so the identity is exact for them.
- Response.ResponseWriter.CopyLimited: a failed write to the caller (a client that disconnected, or a status that allows no body) is not modelled; only read errors of the upstream body are. An upstream read that returns bytes together with an error is modelled as those bytes followed by the error.
- Response.ResponseWriter.WriteHeader: does not model the panic Go raises for a code outside 100-999, nor 1xx informational headers. The client only returns final 3-digit statuses.
- Opening the config file and decoding its JSON (main.go:21-30) are replaced by the `read` parameter. The `os.Getenv` reads are replaced by arguments.
