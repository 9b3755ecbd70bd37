/**
 * How every call to the Docker Engine API is configured, and the daemon itself as
 * an abstract oracle. `makeDockerRequest` exists in three identical copies (the
 * service, the route file and the controller); they share this one definition.
 */
module DockerRequest {
  import opened JsValues

  /** An axios request configuration: property name to value. */
  type Config = map<string, JsValue>

  const UnixSocketPath := "/var/run/docker.sock"

  /** The options every request starts from. */
  const Defaults: Config := map["socketPath" := Str(UnixSocketPath), "method" := Str("get")]

  /**
   * `{ ...defaults, ...options }`: every key of either object, the caller's value
   * winning where both have the key.
   */
  function MergeOptions(defaults: Config, options: Config): (merged: Config)
    ensures merged.Keys == defaults.Keys + options.Keys
    ensures forall k :: k in options ==> merged[k] == options[k]
    ensures forall k :: k in defaults && k !in options ==> merged[k] == defaults[k]
  {
    defaults + options
  }

  /**
   * The configuration handed to axios for `apiPath`: the defaults merged with the
   * caller's options, after which `url` is overwritten with `http:` + `apiPath`.
   */
  function RequestConfig(apiPath: string, options: Config): (c: Config)
    ensures c.Keys == Defaults.Keys + options.Keys + {"url"}
    ensures c["url"] == Str("http:" + apiPath)
    ensures "socketPath" !in options ==> c["socketPath"] == Str(UnixSocketPath)
    ensures "method" !in options ==> c["method"] == Str("get")
    ensures forall k :: k in options && k != "url" ==> c[k] == options[k]
  {
    var requestOptions := MergeOptions(Defaults, options);
    requestOptions["url" := Str("http:" + apiPath)]
  }

  /** A caller's own `url` never reaches axios. */
  lemma CallerUrlIgnored(apiPath: string, options: Config, url: JsValue)
    ensures RequestConfig(apiPath, options["url" := url]) == RequestConfig(apiPath, options)
  {
    var a := RequestConfig(apiPath, options["url" := url]);
    var b := RequestConfig(apiPath, options);
    assert a.Keys == b.Keys;
    forall k | k in a.Keys ensures a[k] == b[k] {
      if k != "url" && k in options {
        assert a[k] == options[k];
      }
    }
  }

  /** Passing `{ method: 'get' }` explicitly configures the same request as passing nothing. */
  lemma ExplicitGetIsDefault(apiPath: string)
    ensures RequestConfig(apiPath, map["method" := Str("get")]) == RequestConfig(apiPath, map[])
  {
    var a := RequestConfig(apiPath, map["method" := Str("get")]);
    var b := RequestConfig(apiPath, map[]);
    assert a.Keys == b.Keys;
  }

  /** What axios resolves with: the response's status and parsed body. */
  datatype AxiosResponse = AxiosResponse(status: int, data: JsValue)

  /** One call `makeDockerRequest(apiPath, options)`. */
  datatype Call = Call(apiPath: string, options: Config) {
    /** The configuration axios is given for this call. */
    function AxiosConfig(): Config {
      RequestConfig(apiPath, options)
    }
  }

  /**
   * The Docker daemon, reached through axios, as an oracle: given every call issued
   * before and the one issued now, it answers with a response, or axios rejects with
   * an error. What goes over the socket for a call is `call.AxiosConfig()`, a function of
   * the call, so an oracle over calls covers every daemon.
   */
  type Daemon = (seq<Call>, Call) -> Result<AxiosResponse>

  /** `return response.data`, or the rejection re-raised unchanged. */
  function DataOf(reply: Result<AxiosResponse>): (r: Result<JsValue>)
    ensures reply.Ok? <==> r.Ok?
    ensures reply.Ok? ==> r.value == reply.value.data
    ensures reply.Err? ==> r.error == reply.error
  {
    match reply
    case Ok(response) => Ok(response.data)
    case Err(e) => Err(e)
  }
}
