/** The `/fetch` handler of main.go:61-117 as one pipeline: validation and
    credential split (module Target), one call to the proxied HTTP client,
    then the relay of the upstream header, status and capped body onto the
    caller's response (module Response). */
module Fetch {
  import opened Wrappers
  import opened Escaping
  import opened Target
  import opened Response

  /** The body cap, 10<<20 bytes (10 MiB). */
  const BODY_LIMIT: nat := 10 * 1024 * 1024

  /** A read-buffer size for the copy loop; the bytes relayed do not depend on it. */
  const COPY_BUFFER: nat := 32 * 1024

  /** An upstream body stream: the bytes it yields, then either a clean end
      (None) or a read error. */
  datatype Body = Body(data: string, failure: Option<string>)

  /** What `client.Do` returns: a transport error, or a response. */
  datatype Upstream =
    | TransportError(text: string)
    | Answer(status: int, header: Header, body: Body)

  /** The proxied HTTP client, seen as a function of the outbound request. */
  type Client = Outbound -> Upstream

  /** The decision the handler reaches before it writes anything: a failure
      to report, or the upstream answer to relay. */
  function Exchange(q: Query, parse: Parser, builds: Builder, client: Client): (r: Result<Upstream, Failure>)
    ensures r.Success? ==> r.value.Answer? && Plan(q, parse, builds).Success? &&
                           client(Plan(q, parse, builds).value) == r.value
    ensures r.Failure? && Plan(q, parse, builds).Failure? ==> r.error == Plan(q, parse, builds).error
    ensures r.Failure? && Plan(q, parse, builds).Success? ==>
              client(Plan(q, parse, builds).value).TransportError? &&
              r.error == UpstreamUnreachable(client(Plan(q, parse, builds).value).text)
  {
    match Plan(q, parse, builds)
    case Failure(f) => Failure(f)
    case Success(out) =>
      match client(out)
      case TransportError(text) => Failure(UpstreamUnreachable(text))
      case Answer(_, _, _) => Success(client(out))
  }

  /** The caller's response after the handler ran on `prior`. */
  function Respond(prior: Reply, q: Query, parse: Parser, builds: Builder, client: Client): Reply {
    match Exchange(q, parse, builds, client)
    case Failure(f) =>
      Reply(prior.header, Commit(prior.sent, Status(f), prior.header), prior.body + Message(f) + "\n")
    case Success(answer) =>
      var relayed := Merge(prior.header, answer.header);
      Reply(relayed, Commit(prior.sent, answer.status, relayed), prior.body + Prefix(answer.body.data, BODY_LIMIT))
  }

  /** The error the body copy reports, which the handler only logs. */
  function CopyError(q: Query, parse: Parser, builds: Builder, client: Client): Option<string> {
    match Exchange(q, parse, builds, client)
    case Failure(_) => None
    case Success(answer) => if |answer.body.data| < BODY_LIMIT then answer.body.failure else None
  }

  /** The handler. Returns the body-copy error it logs, if any. */
  method Serve(w: ResponseWriter, q: Query, parse: Parser, builds: Builder, client: Client)
    returns (logged: Option<string>)
    modifies w
    ensures w.Snapshot() == Respond(old(w.Snapshot()), q, parse, builds, client)
    ensures logged == CopyError(q, parse, builds, client)
  {
    logged := None;
    var plan := Plan(q, parse, builds);
    if plan.Failure? {
      w.Error(Message(plan.error), Status(plan.error));
      return;
    }
    var reply := client(plan.value);
    if reply.TransportError? {
      var f := UpstreamUnreachable(reply.text);
      w.Error(Message(f), Status(f));
      return;
    }
    w.AddAll(reply.header);
    w.WriteHeader(reply.status);
    logged := w.CopyLimited(reply.body.data, reply.body.failure, BODY_LIMIT, COPY_BUFFER);
  }

  /** The response a fresh writer starts from. */
  const FRESH: Reply := Reply(map[], None, [])

  /** A request rejected before or at dispatch gets exactly one status and
      the failure's message followed by a newline, and no upstream header. */
  lemma RejectionResponse(q: Query, parse: Parser, builds: Builder, client: Client)
    requires Exchange(q, parse, builds, client).Failure?
    ensures var f := Exchange(q, parse, builds, client).error;
            Respond(FRESH, q, parse, builds, client) == Reply(map[], Some(Head(Status(f), map[])), Message(f) + "\n")
  {
  }

  /** No `route` value: 400 "missing route query parameter", whatever the
      parser, the request constructor and the upstream would have done. */
  lemma MissingRouteResponse(q: Query, parse: Parser, builds: Builder, client: Client)
    requires QueryGet(q, "route") == ""
    ensures Respond(FRESH, q, parse, builds, client) ==
              Reply(map[], Some(Head(400, map[])), "missing route query parameter\n")
  {
    MissingRouteDecidesAlone(q, parse, parse, builds, builds);
  }

  /** A route with a malformed escape at some position is answered 400 with
      the encoding message. */
  lemma BadEscapeResponse(q: Query, parse: Parser, builds: Builder, client: Client, i: int)
    requires 0 <= i < |QueryGet(q, "route")| && BadEscapeAt(QueryGet(q, "route"), i)
    ensures Respond(FRESH, q, parse, builds, client) ==
              Reply(map[], Some(Head(400, map[])), "invalid url encoding for route\n")
  {
    BadEscapeIsInvalidEncoding(QueryGet(q, "route"), i, parse);
  }

  /** A decoded route that does not parse, or parses without a scheme or a
      host, is answered 400 with the absolute-URL message. */
  lemma NotAbsoluteResponse(q: Query, parse: Parser, builds: Builder, client: Client)
    requires QueryGet(q, "route") != "" && Unescape(QueryGet(q, "route")).Some?
    requires var p := parse(Unescape(QueryGet(q, "route")).value);
             p.None? || p.value.scheme == "" || p.value.host == ""
    ensures Respond(FRESH, q, parse, builds, client) ==
              Reply(map[], Some(Head(400, map[])), "route must be a valid absolute URL\n")
  {
    assert Classify(QueryGet(q, "route"), parse) == Failure(InvalidTarget);
    assert Exchange(q, parse, builds, client) == Failure(InvalidTarget);
  }

  /** An absolute target whose scheme is neither http nor https is answered
      400 with the scheme message. */
  lemma UnsupportedSchemeResponse(q: Query, parse: Parser, builds: Builder, client: Client)
    requires QueryGet(q, "route") != "" && Unescape(QueryGet(q, "route")).Some?
    requires var p := parse(Unescape(QueryGet(q, "route")).value);
             p.Some? && p.value.scheme != "" && p.value.host != "" &&
             p.value.scheme != "http" && p.value.scheme != "https"
    ensures Respond(FRESH, q, parse, builds, client) ==
              Reply(map[], Some(Head(400, map[])), "unsupported scheme (only http/https allowed)\n")
  {
    assert Classify(QueryGet(q, "route"), parse) == Failure(UnsupportedScheme);
    assert Exchange(q, parse, builds, client) == Failure(UnsupportedScheme);
  }

  /** A request that fails validation or construction never reaches the
      client: the response does not depend on it. */
  lemma RejectionIgnoresUpstream(prior: Reply, q: Query, parse: Parser, builds: Builder, c1: Client, c2: Client)
    requires Plan(q, parse, builds).Failure?
    ensures Respond(prior, q, parse, builds, c1) == Respond(prior, q, parse, builds, c2)
    ensures CopyError(q, parse, builds, c1) == CopyError(q, parse, builds, c2) == None
  {
  }

  /** A transport failure is a 502 whose body starts with
      "upstream request failed: " and carries the error text. */
  lemma TransportFailureResponse(q: Query, parse: Parser, builds: Builder, client: Client)
    requires Plan(q, parse, builds).Success?
    requires client(Plan(q, parse, builds).value).TransportError?
    ensures var text := client(Plan(q, parse, builds).value).text;
            var r := Respond(FRESH, q, parse, builds, client);
            r.header == map[] && r.sent == Some(Head(502, map[])) &&
            r.body == "upstream request failed: " + text + "\n"
  {
  }

  /** A request whose outbound URL the request constructor refuses is a
      500 "failed to build request", and the client is never asked. */
  lemma BuildFailureResponse(q: Query, parse: Parser, builds: Builder, client: Client)
    requires Classify(QueryGet(q, "route"), parse).Success?
    requires !builds(Classify(QueryGet(q, "route"), parse).value.(user := None))
    ensures Respond(FRESH, q, parse, builds, client) ==
              Reply(map[], Some(Head(500, map[])), "failed to build request\n")
  {
  }

  /** A dispatched request relays the upstream status verbatim, sent with a
      header that per key holds the prior values followed by all upstream
      values, and a body that is the longest prefix of the upstream body
      within 10 MiB. */
  lemma SuccessfulRelay(prior: Reply, q: Query, parse: Parser, builds: Builder, client: Client, key: string)
    requires prior.sent.None?
    requires Plan(q, parse, builds).Success?
    requires client(Plan(q, parse, builds).value).Answer?
    ensures var a := client(Plan(q, parse, builds).value);
            var r := Respond(prior, q, parse, builds, client);
            && r.sent.Some? && r.sent.value.status == a.status && r.sent.value.header == r.header
            && Values(r.header, key) == Values(prior.header, key) + Values(a.header, key)
            && r.body == prior.body + a.body.data[..Min(|a.body.data|, 10485760)]
  {
    MergeAppends(prior.header, client(Plan(q, parse, builds).value).header, key);
  }

  /** An upstream body error is at most logged: the response is the same as
      if the body had ended cleanly. */
  lemma BodyErrorIsOnlyLogged(prior: Reply, q: Query, parse: Parser, builds: Builder, out: Outbound,
                              status: int, header: Header, data: string, failure: string)
    requires Plan(q, parse, builds) == Success(out)
    ensures Respond(prior, q, parse, builds,
                    (o: Outbound) => if o == out then Answer(status, header, Body(data, Some(failure))) else TransportError([])) ==
            Respond(prior, q, parse, builds,
                    (o: Outbound) => if o == out then Answer(status, header, Body(data, None)) else TransportError([]))
  {
  }

  /** A `route` value that is still query-escaped after the inbound query
      was parsed (the raw query escaped it twice) is decoded back to the
      target, which is then fetched without its user-info (and without an
      empty port, see `RequestUrl`) and with its
      credentials in a Basic-Authorization header when it names a user. */
  lemma EscapedTargetIsFetched(target: seq<Byte>, u: Url, parse: Parser, builds: Builder)
    requires target != [] && parse(target) == Some(u) && Fetchable(u)
    requires builds(u.(user := None))
    ensures Plan(map["route" := [Escape(target)]], parse, builds) ==
            Success(Outbound("GET", RequestUrl(u),
                             if Username(u.user) != "" then Some(Credentials(Username(u.user), Password(u.user))) else None))
  {
    UnescapeEscape(target);
    assert |Escape(target)| >= |target| > 0;
  }

  /** The usual case: the raw query escaped the target once, so the parsed
      `route` value is the target itself. A target without `%` and `+` is
      fetched as itself without user-info and without an empty port, with
      credentials iff it names a user; for example `route=http%3A%2F%2Fuser%3Apass%40example.com%2Fpath`
      fetches `http://example.com/path` with user:pass. */
  lemma PlainTargetIsFetched(target: string, u: Url, parse: Parser, builds: Builder)
    requires target != [] && forall i | 0 <= i < |target| :: target[i] != '%' && target[i] != '+'
    requires parse(target) == Some(u) && Fetchable(u)
    requires builds(u.(user := None))
    ensures Plan(map["route" := [target]], parse, builds) ==
            Success(Outbound("GET", RequestUrl(u),
                             if Username(u.user) != "" then Some(Credentials(Username(u.user), Password(u.user))) else None))
  {
    UnescapePlain(target);
  }
}
