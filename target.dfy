/** The validation chain and the credential split of the `/fetch` handler
    (main.go): the `route` value becomes either an outbound GET request or
    exactly one failure. The URL parser and the request constructor belong to
    Go's libraries and are parameters here. */
module Target {
  import opened Wrappers
  import opened Escaping

  /** Go's `*url.Userinfo`: a username and a password that may be unset. */
  datatype Userinfo = Userinfo(username: string, password: Option<string>)

  /** The components of a parsed `*url.URL` the handler looks at or keeps. */
  datatype Url = Url(
    scheme: string,
    opaqueData: string,
    user: Option<Userinfo>,
    host: string,
    path: string,
    rawQuery: string,
    fragment: string)

  /** `url.Parse`: None stands for a parse error. Go's parser lower-cases
      the scheme. */
  type Parser = string -> Option<Url>

  /** Whether `http.NewRequestWithContext` accepts a GET to this URL (it
      re-parses the URL's serialisation). */
  type Builder = Url -> bool

  /** The query of the inbound request, as `r.URL.Query()` returns it. */
  type Query = map<string, seq<string>>

  datatype Credentials = Credentials(username: string, password: string)

  /** The request handed to the HTTP client. */
  datatype Outbound = Outbound(verb: string, url: Url, basicAuth: Option<Credentials>)

  /** The handler's failure kinds, each answered by one status and message. */
  datatype Failure =
    | MissingParameter
    | InvalidEncoding
    | InvalidTarget
    | UnsupportedScheme
    | RequestBuildFailure
    | UpstreamUnreachable(detail: string)

  function Status(f: Failure): (code: int)
    ensures 400 <= code < 600
    ensures code == 400 <==> f.MissingParameter? || f.InvalidEncoding? || f.InvalidTarget? || f.UnsupportedScheme?
    ensures f.RequestBuildFailure? ==> code == 500
    ensures f.UpstreamUnreachable? ==> code == 502
  {
    match f
    case RequestBuildFailure => 500
    case UpstreamUnreachable(_) => 502
    case _ => 400
  }

  /** The text `http.Error` writes for each failure (before its newline). A
      transport failure's text is a fixed prefix followed by the error. */
  function Message(f: Failure): (msg: string)
    ensures |msg| > 0
    ensures f.UpstreamUnreachable? ==>
              |msg| == 25 + |f.detail| && msg[..25] == "upstream request failed: " && msg[25..] == f.detail
  {
    match f
    case MissingParameter => "missing route query parameter"
    case InvalidEncoding => "invalid url encoding for route"
    case InvalidTarget => "route must be a valid absolute URL"
    case UnsupportedScheme => "unsupported scheme (only http/https allowed)"
    case RequestBuildFailure => "failed to build request"
    case UpstreamUnreachable(detail) => "upstream request failed: " + detail
  }

  /** `url.Values.Get`: the first value of the key, or "" when there is none. */
  function QueryGet(q: Query, key: string): (v: string)
    ensures key !in q || q[key] == [] ==> v == ""
    ensures key in q && q[key] != [] ==> v == q[key][0]
  {
    if key in q && q[key] != [] then q[key][0] else ""
  }

  /** `User.Username()` and `User.Password()` on a possibly nil user. */
  function Username(u: Option<Userinfo>): (name: string)
    ensures u.None? ==> name == ""
    ensures u.Some? ==> name == u.value.username
  {
    if u.Some? then u.value.username else ""
  }

  function Password(u: Option<Userinfo>): (password: string)
    ensures u.None? || u.value.password.None? ==> password == ""
    ensures u.Some? && u.value.password.Some? ==> password == u.value.password.value
  {
    if u.Some? && u.value.password.Some? then u.value.password.value else ""
  }

  /** A URL the handler is willing to fetch. */
  predicate Fetchable(u: Url) {
    u.host != "" && (u.scheme == "http" || u.scheme == "https")
  }

  /** The validation chain of main.go:62-82: presence, decoding, parsing,
      scheme. */
  function Classify(route: string, parse: Parser): (r: Result<Url, Failure>)
    ensures r.Success? ==> Fetchable(r.value)
    ensures r.Success? ==> Unescape(route).Some? && parse(Unescape(route).value) == Some(r.value)
    ensures r.Failure? ==> Status(r.error) == 400
  {
    if route == "" then Failure(MissingParameter)
    else
      match Unescape(route)
      case None => Failure(InvalidEncoding)
      case Some(raw) =>
        match parse(raw)
        case None => Failure(InvalidTarget)
        case Some(u) =>
          if u.scheme == "" || u.host == "" then Failure(InvalidTarget)
          else if u.scheme != "http" && u.scheme != "https" then Failure(UnsupportedScheme)
          else Success(u)
  }

  /** Whether a host names an empty port: it ends in `:`. */
  predicate EmptyPort(host: string) {
    |host| > 0 && host[|host| - 1] == ':'
  }

  /** `removeEmptyPort` of net/http, which `http.NewRequestWithContext`
      applies to the host it parsed: a trailing `:` is dropped, so
      `example.com:` is requested as `example.com`, and `:` becomes "". */
  function RemoveEmptyPort(host: string): (h: string)
    ensures EmptyPort(host) ==> h + ":" == host
    ensures !EmptyPort(host) ==> h == host
    ensures h == "" <==> host == "" || host == ":"
  {
    if EmptyPort(host) then host[..|host| - 1] else host
  }

  /** The URL of the request `http.NewRequestWithContext` builds from the
      credential-free copy of `target`: no user-info, an empty port dropped
      from the host, every other component kept. */
  function RequestUrl(target: Url): (u: Url)
    ensures u.user.None? && u.host == RemoveEmptyPort(target.host)
    ensures u.(user := target.user, host := target.host) == target
  {
    target.(user := None, host := RemoveEmptyPort(target.host))
  }

  /** The credential split of main.go:84-98: take the user-info out of the
      URL and turn it into an optional Basic-Authorization credential. */
  function Prepare(target: Url, builds: Builder): (r: Result<Outbound, Failure>)
    ensures r.Failure? <==> !builds(target.(user := None))
    ensures r.Failure? ==> r.error == RequestBuildFailure
    ensures r.Success? ==> r.value.verb == "GET" && r.value.url.user.None?
    ensures r.Success? ==> r.value.url == RequestUrl(target)
    ensures r.Success? ==> (r.value.basicAuth.Some? <==> Username(target.user) != "")
    ensures r.Success? && r.value.basicAuth.Some? ==>
              r.value.basicAuth.value == Credentials(Username(target.user), Password(target.user))
  {
    if !builds(target.(user := None)) then Failure(RequestBuildFailure)
    else
      var auth := if Username(target.user) != "" then Some(Credentials(Username(target.user), Password(target.user))) else None;
      Success(Outbound("GET", RequestUrl(target), auth))
  }

  /** Everything the handler decides before it contacts the upstream. */
  function Plan(q: Query, parse: Parser, builds: Builder): (r: Result<Outbound, Failure>)
    ensures r.Success? ==> Classify(QueryGet(q, "route"), parse).Success? &&
                           r.value.url == RequestUrl(Classify(QueryGet(q, "route"), parse).value)
    ensures r.Success? ==> r.value.url.user.None? && (r.value.url.scheme == "http" || r.value.url.scheme == "https")
    ensures r.Success? ==> (r.value.url.host == "" <==> Classify(QueryGet(q, "route"), parse).value.host == ":")
  {
    match Classify(QueryGet(q, "route"), parse)
    case Failure(f) => Failure(f)
    case Success(target) => Prepare(target, builds)
  }

  /** The checks run in a fixed order and the first one that fails decides
      the failure; a later check is only reached when every earlier one
      passed. */
  lemma FirstFailureDecides(route: string, parse: Parser)
    ensures Classify(route, parse) == Failure(MissingParameter) <==> route == ""
    ensures Classify(route, parse) == Failure(InvalidEncoding) <==>
              route != "" && Unescape(route).None?
    ensures Classify(route, parse) == Failure(InvalidTarget) <==>
              route != "" && Unescape(route).Some? &&
              (parse(Unescape(route).value).None? ||
               parse(Unescape(route).value).value.scheme == "" ||
               parse(Unescape(route).value).value.host == "")
    ensures Classify(route, parse) == Failure(UnsupportedScheme) <==>
              route != "" && Unescape(route).Some? &&
              parse(Unescape(route).value).Some? &&
              parse(Unescape(route).value).value.scheme != "" &&
              parse(Unescape(route).value).value.host != "" &&
              !(parse(Unescape(route).value).value.scheme in {"http", "https"})
    ensures Classify(route, parse).Success? <==>
              route != "" && Unescape(route).Some? &&
              parse(Unescape(route).value).Some? &&
              Fetchable(parse(Unescape(route).value).value)
  {
  }

  /** Without a `route` value nothing is decoded, parsed or built: the
      answer is the same whatever the parser and the request constructor. */
  lemma MissingRouteDecidesAlone(q: Query, parse1: Parser, parse2: Parser, builds1: Builder, builds2: Builder)
    requires QueryGet(q, "route") == ""
    ensures Plan(q, parse1, builds1) == Plan(q, parse2, builds2) == Failure(MissingParameter)
  {
  }

  /** A malformed escape is reported before any parsing happens. */
  lemma BadEscapeIsInvalidEncoding(route: string, i: int, parse: Parser)
    requires 0 <= i < |route| && BadEscapeAt(route, i)
    ensures Classify(route, parse) == Failure(InvalidEncoding)
  {
    UnescapeFailsIff(route);
  }

  /** The credential split loses nothing: putting the extracted username and
      password back into the outbound URL restores the target whenever the
      user-info had a non-empty username and a password. */
  lemma CredentialSplitRestores(target: Url, builds: Builder)
    requires Prepare(target, builds).Success?
    requires target.user.Some? && target.user.value.username != "" && target.user.value.password.Some?
    ensures var out := Prepare(target, builds).value;
            out.basicAuth.Some? &&
            out.url.(user := Some(Userinfo(out.basicAuth.value.username, Some(out.basicAuth.value.password)))) ==
              target.(host := RemoveEmptyPort(target.host))
  {
  }

  /** An empty port does not survive request construction: a target host
      `h:` is requested as `h`, everything else of the target kept. */
  lemma EmptyPortIsDropped(target: Url, builds: Builder, h: string)
    requires target.host == h + ":" && builds(target.(user := None))
    ensures Prepare(target, builds).Success?
    ensures Prepare(target, builds).value.url == target.(user := None, host := h)
  {
    assert RemoveEmptyPort(target.host) + ":" == h + ":";
  }

  /** A password without a username attaches no credentials. */
  lemma PasswordAloneSendsNoAuth(target: Url, builds: Builder, password: string)
    requires target.user == Some(Userinfo("", Some(password)))
    requires builds(target.(user := None))
    ensures Prepare(target, builds).Success? && Prepare(target, builds).value.basicAuth.None?
  {
  }
}
