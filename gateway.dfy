/**
 * The authenticated reverse proxy of `app.js`: requests under `/docker-api` must carry
 * the stored API key in `x-api-key`; accepted requests lose the mount prefix and are
 * forwarded to the Docker socket with their method and headers, and the upstream
 * answer, or a connection error, becomes the response.
 */
module Gateway {
  import opened JsValues
  import opened DockerRequest

  const MountPrefix := "/docker-api"
  const ApiKeyHeader := "x-api-key"
  const Unauthorized := "Unauthorized"
  const ConnectionFailed := "Error connecting to Docker Engine API"

  /** The named pipe path the source writes for Windows, as its string literal evaluates. */
  const WindowsPipePath := "/\\./pipe/docker_engine"

  /** Request and response headers, by lower-case name. */
  type Headers = map<string, string>

  /** The process environment. */
  type Env = map<string, string>

  /** `getDefaultDockerSocket()`. */
  function DefaultDockerSocket(platform: string): (socket: string)
    ensures platform == "win32" ==> socket == WindowsPipePath
    ensures platform != "win32" ==> socket == UnixSocketPath
  {
    if platform == "win32" then WindowsPipePath else UnixSocketPath
  }

  /** `process.env.DOCKER_SOCKET || getDefaultDockerSocket()`: an unset or empty variable means the default. */
  function DockerSocket(env: Env, platform: string): (socket: string)
    ensures "DOCKER_SOCKET" in env && env["DOCKER_SOCKET"] != "" ==> socket == env["DOCKER_SOCKET"]
    ensures !("DOCKER_SOCKET" in env && env["DOCKER_SOCKET"] != "") ==> socket == DefaultDockerSocket(platform)
    ensures socket != ""
  {
    var configured := if "DOCKER_SOCKET" in env then Str(env["DOCKER_SOCKET"]) else Undefined;
    if Truthy(configured) then configured.s else DefaultDockerSocket(platform)
  }

  /** `process.env.PORT || 3000`: the variable's text when set and non-empty, else the number 3000. */
  function Port(env: Env): (port: JsValue)
    ensures "PORT" in env && env["PORT"] != "" ==> port == Str(env["PORT"])
    ensures !("PORT" in env && env["PORT"] != "") ==> port == Num(3000)
    ensures Truthy(port)
  {
    var configured := if "PORT" in env then Str(env["PORT"]) else Undefined;
    if Truthy(configured) then configured else Num(3000)
  }

  /** What the authentication middleware decides. */
  datatype AuthDecision = Pass | Reject(status: int, body: string)

  /**
   * `authenticate`: the header's value must be truthy and strictly equal to the
   * stored key; otherwise the answer is 401 `Unauthorized`.
   */
  function Authenticate(headers: Headers, apiKey: string): (d: AuthDecision)
    ensures d.Pass? <==> ApiKeyHeader in headers && headers[ApiKeyHeader] != "" && headers[ApiKeyHeader] == apiKey
    ensures d.Reject? ==> d == Reject(401, Unauthorized)
  {
    var providedApiKey := if ApiKeyHeader in headers then Str(headers[ApiKeyHeader]) else Undefined;
    if !Truthy(providedApiKey) || providedApiKey != Str(apiKey) then Reject(401, Unauthorized) else Pass
  }

  /** A wrong key is answered exactly as a missing one. */
  lemma WrongKeyLikeMissingKey(headers: Headers, apiKey: string)
    requires ApiKeyHeader in headers && headers[ApiKeyHeader] != apiKey
    ensures Authenticate(headers, apiKey) == Authenticate(headers - {ApiKeyHeader}, apiKey) == Reject(401, Unauthorized)
  {
  }

  /** With an empty stored key every request is rejected, even one sending an empty key. */
  lemma EmptyStoredKeyRejectsAll(headers: Headers)
    ensures Authenticate(headers, "") == Reject(401, Unauthorized)
  {
  }

  /**
   * The part of a URL before its query string or fragment, as the fast path of Express's
   * URL parsing gives it for a URL starting with `/`.
   */
  function PathnameOf(url: string): (pathname: string)
    ensures pathname <= url && '?' !in pathname && '#' !in pathname
    ensures |pathname| < |url| ==> url[|pathname|] == '?' || url[|pathname|] == '#'
  {
    if url == [] || url[0] == '?' || url[0] == '#' then []
    else
      var rest := PathnameOf(url[1..]);
      assert |rest| < |url[1..]| ==> url[1..][|rest|] == url[|rest| + 1];
      [url[0]] + rest
  }

  /**
   * `app.use('/docker-api', ...)` runs for a pathname that starts with the mount
   * path, compared without regard to case, followed by `/` or by nothing.
   */
  predicate MountMatches(pathname: string) {
    |pathname| >= |MountPrefix|
    && LowerAscii(pathname[..|MountPrefix|]) == MountPrefix
    && (|pathname| == |MountPrefix| || pathname[|MountPrefix|] == '/')
  }

  /** `url.replace(/^\/docker-api/, '')`: only a leading, exactly spelled prefix is removed. */
  function StripMountPrefix(url: string): (r: string)
    ensures MountPrefix <= url ==> MountPrefix + r == url
    ensures !(MountPrefix <= url) ==> r == url
  {
    if MountPrefix <= url then url[|MountPrefix|..] else url
  }

  /** Removing the prefix undoes prepending it: the rest, query string included, is kept as is. */
  lemma StripUndoesPrefix(rest: string)
    ensures StripMountPrefix(MountPrefix + rest) == rest
  {
    assert MountPrefix <= MountPrefix + rest;
  }

  /** Only the first prefix goes: stripping is not idempotent, and a bare mount path becomes empty. */
  lemma StripExamples()
    ensures StripMountPrefix("/docker-api/docker-api/x") == "/docker-api/x"
    ensures StripMountPrefix(StripMountPrefix("/docker-api/docker-api/x")) == "/x"
    ensures StripMountPrefix("/docker-api") == ""
  {
    StripUndoesPrefix("/docker-api/x");
    assert MountPrefix + "/docker-api/x" == "/docker-api/docker-api/x";
    StripUndoesPrefix("/x");
    assert MountPrefix + "/x" == "/docker-api/x";
    StripUndoesPrefix("");
    assert MountPrefix + "" == "/docker-api";
  }

  /**
   * Express admits the mount path in any case, but the prefix is removed only when
   * spelled exactly, so `/Docker-API/...` is forwarded with its prefix.
   */
  lemma CaseVariantPrefixForwarded()
    ensures MountMatches("/Docker-API/info")
    ensures StripMountPrefix("/Docker-API/info") == "/Docker-API/info"
  {
    var s := "/Docker-API/info";
    assert LowerAscii(s[..|MountPrefix|]) == MountPrefix;
    assert !(MountPrefix <= s) by {
      assert s[1] != MountPrefix[1];
    }
  }

  /** `s.endsWith('/') ? s.slice(0, -1) : s`. */
  function TrimTrailingSlash(s: string): (r: string)
    ensures |s| > 0 && s[|s| - 1] == '/' ==> r + "/" == s
    ensures !(|s| > 0 && s[|s| - 1] == '/') ==> r == s
  {
    if |s| > 0 && s[|s| - 1] == '/' then s[..|s| - 1] else s
  }

  /** The trim removes one slash at most: `/` becomes empty and `//` becomes `/`. */
  lemma TrimExamples()
    ensures TrimTrailingSlash("/") == "" && TrimTrailingSlash("//") == "/"
    ensures TrimTrailingSlash("/containers/json") == "/containers/json"
  {
    assert "//"[..1] == "/";
  }

  /** The request as the proxy handler sees it. */
  datatype InboundRequest = InboundRequest(httpMethod: string, originalUrl: string, headers: Headers)

  /** The options handed to `http.request`. */
  datatype ProxyOptions = ProxyOptions(socketPath: string, path: string, httpMethod: string, headers: Headers)

  /** The forwarded request: the configured socket, the stripped URL, the lower-cased method, the headers as received. */
  function ForwardOptions(dockerSocket: string, req: InboundRequest): (o: ProxyOptions)
    ensures MountPrefix <= req.originalUrl ==> MountPrefix + o.path == req.originalUrl
    ensures !(MountPrefix <= req.originalUrl) ==> o.path == req.originalUrl
    ensures |o.httpMethod| == |req.httpMethod| && forall i :: 0 <= i < |o.httpMethod| ==> o.httpMethod[i] == LowerChar(req.httpMethod[i])
    ensures o.socketPath == dockerSocket && o.headers == req.headers
  {
    ProxyOptions(dockerSocket, StripMountPrefix(req.originalUrl), LowerAscii(req.httpMethod), req.headers)
  }

  /** The trimmed path is computed but not used: a trailing slash reaches the daemon. */
  lemma ForwardedPathNotTrimmed(dockerSocket: string, headers: Headers)
    ensures var url := "/docker-api/containers/json/";
            ForwardOptions(dockerSocket, InboundRequest("GET", url, headers)).path == "/containers/json/"
            && TrimTrailingSlash(StripMountPrefix(url)) == "/containers/json"
  {
    StripUndoesPrefix("/containers/json/");
    assert MountPrefix + "/containers/json/" == "/docker-api/containers/json/";
    assert "/containers/json/"[..16] == "/containers/json";
  }

  /** An accepted request forwards the client's API key to the daemon with the other headers. */
  lemma ApiKeyForwardedUpstream(dockerSocket: string, apiKey: string, req: InboundRequest)
    requires Authenticate(req.headers, apiKey).Pass?
    ensures ApiKeyHeader in ForwardOptions(dockerSocket, req).headers
    ensures ForwardOptions(dockerSocket, req).headers[ApiKeyHeader] == apiKey
  {
  }

  /** What `http.request` reports: the upstream status and headers, or an `error` event. */
  datatype Upstream = Responded(statusCode: int, headers: Headers) | ConnectionError

  /** A response body: none yet, a text, or the upstream body piped through. */
  datatype Body = NoBody | Text(text: string) | Piped

  /** How a request ends: left to Express, or answered, possibly after forwarding. */
  datatype Exchange =
    | Unhandled
    | Answered(statusCode: int, headers: Headers, body: Body, forwarded: Option<ProxyOptions>)

  /**
   * The whole application on one request, the daemon's side of the socket given as
   * `upstream`: mount match, authentication, then the proxy handler.
   */
  function Serve(dockerSocket: string, apiKey: string, req: InboundRequest, upstream: ProxyOptions -> Upstream): Exchange {
    if !MountMatches(PathnameOf(req.originalUrl)) then Unhandled
    else
      match Authenticate(req.headers, apiKey)
      case Reject(status, text) => Answered(status, map[], Text(text), None)
      case Pass =>
        var options := ForwardOptions(dockerSocket, req);
        match upstream(options)
        case Responded(code, headers) => Answered(code, headers, Piped, Some(options))
        case ConnectionError => Answered(500, map[], Text(ConnectionFailed), Some(options))
  }

  /** A request without the right key is answered 401 and never reaches the socket. */
  lemma RejectedNeverForwarded(dockerSocket: string, apiKey: string, req: InboundRequest, upstream: ProxyOptions -> Upstream)
    requires MountMatches(PathnameOf(req.originalUrl))
    requires !(ApiKeyHeader in req.headers && req.headers[ApiKeyHeader] != "" && req.headers[ApiKeyHeader] == apiKey)
    ensures Serve(dockerSocket, apiKey, req, upstream) == Answered(401, map[], Text(Unauthorized), None)
  {
  }

  /**
   * An accepted request is forwarded once, with the forward options, and answered
   * with the upstream status and headers, or 500 when the socket cannot be reached.
   */
  lemma AcceptedForwarded(dockerSocket: string, apiKey: string, req: InboundRequest, upstream: ProxyOptions -> Upstream)
    requires MountMatches(PathnameOf(req.originalUrl))
    requires Authenticate(req.headers, apiKey).Pass?
    ensures var out := Serve(dockerSocket, apiKey, req, upstream);
            var options := ForwardOptions(dockerSocket, req);
            out.Answered? && out.forwarded == Some(options)
            && (upstream(options).Responded? ==>
                  out.statusCode == upstream(options).statusCode && out.headers == upstream(options).headers && out.body == Piped)
            && (upstream(options).ConnectionError? ==> out.statusCode == 500 && out.body == Text(ConnectionFailed))
  {
  }

  /** Nothing outside the mount path is forwarded, whatever its headers. */
  lemma OutsideMountNotForwarded(dockerSocket: string, apiKey: string, req: InboundRequest, upstream: ProxyOptions -> Upstream)
    requires !MountMatches(PathnameOf(req.originalUrl))
    ensures Serve(dockerSocket, apiKey, req, upstream) == Unhandled
  {
  }

  /**
   * The mount is a whole path segment: `/docker-apix` and `/docker-api-v2/x` start with
   * the prefix's letters but are outside it, while `/docker-api/x` and `/docker-api` are inside.
   */
  lemma MountIsWholeSegment()
    ensures !MountMatches("/docker-apix") && !MountMatches("/docker-api-v2/x")
    ensures MountMatches("/docker-api/x") && MountMatches("/docker-api")
  {
    assert "/docker-apix"[|MountPrefix|] == 'x';
    assert "/docker-api-v2/x"[|MountPrefix|] == '-';
    assert LowerAscii("/docker-apix"[..|MountPrefix|]) == MountPrefix;
    assert LowerAscii("/docker-api/x"[..|MountPrefix|]) == MountPrefix;
    assert LowerAscii("/docker-api"[..|MountPrefix|]) == MountPrefix;
  }

  /** The Node response object the middleware chain writes to. */
  class ServerResponse {
    var statusCode: int
    var headers: Headers
    var body: Body
    var finished: bool

    constructor ()
      ensures statusCode == 200 && headers == map[] && body == NoBody && !finished
    {
      statusCode := 200;
      headers := map[];
      body := NoBody;
      finished := false;
    }

    /** `res.status(code).send(text)`. */
    method Send(code: int, text: string)
      modifies this
      ensures statusCode == code && headers == old(headers) && body == Text(text) && finished
    {
      statusCode := code;
      body := Text(text);
      finished := true;
    }

    /** `res.writeHead(code, upstreamHeaders)`: the upstream headers are added to those already set. */
    method WriteHead(code: int, upstreamHeaders: Headers)
      modifies this
      ensures statusCode == code && headers == old(headers) + upstreamHeaders
      ensures body == old(body) && finished == old(finished)
    {
      statusCode := code;
      headers := headers + upstreamHeaders;
    }

    /** `clientResponse.pipe(res, { end: true })`. */
    method PipeUpstreamBody()
      modifies this
      ensures body == Piped && finished
      ensures statusCode == old(statusCode) && headers == old(headers)
    {
      body := Piped;
      finished := true;
    }

    /** `res.end(text)`. */
    method End(text: string)
      modifies this
      ensures body == Text(text) && finished
      ensures statusCode == old(statusCode) && headers == old(headers)
    {
      body := Text(text);
      finished := true;
    }
  }

  /**
   * One request through the application onto an unfinished response: `forwarded`
   * is what went to the socket, and the response ends as `Serve` says.
   */
  method HandleRequest(res: ServerResponse, dockerSocket: string, apiKey: string, req: InboundRequest, upstream: ProxyOptions -> Upstream)
    returns (forwarded: Option<ProxyOptions>)
    requires !res.finished
    modifies res
    ensures var out := Serve(dockerSocket, apiKey, req, upstream);
            match out
            case Unhandled => forwarded == None && res.statusCode == old(res.statusCode) && res.headers == old(res.headers)
                              && res.body == old(res.body) && res.finished == old(res.finished)
            case Answered(code, headers, body, options) =>
              forwarded == options && res.statusCode == code && res.headers == old(res.headers) + headers
              && res.body == body && res.finished
  {
    if !MountMatches(PathnameOf(req.originalUrl)) {
      return None;
    }
    var decision := Authenticate(req.headers, apiKey);
    if decision.Reject? {
      res.Send(decision.status, decision.body);
      assert res.headers == old(res.headers) + map[];
      return None;
    }
    var dockerPath := StripMountPrefix(req.originalUrl);
    dockerPath := TrimTrailingSlash(dockerPath);
    var options := ProxyOptions(dockerSocket, StripMountPrefix(req.originalUrl), LowerAscii(req.httpMethod), req.headers);
    forwarded := Some(options);
    match upstream(options) {
      case Responded(code, upstreamHeaders) =>
        res.WriteHead(code, upstreamHeaders);
        res.PipeUpstreamBody();
      case ConnectionError =>
        res.statusCode := 500;
        res.End(ConnectionFailed);
        assert res.headers == old(res.headers) + map[];
    }
  }
}
