/**
 * The Docker service layer: the requests each service function issues, the order in
 * which `createContainer` issues its three requests, and the projections of the
 * daemon's JSON lists into small summary records. Every issued request is recorded
 * in the client's trace.
 */
module DockerService {
  import opened JsValues
  import opened DockerRequest

  /**
   * `xs.map(f)` where `f` may throw: the results in order when no call throws,
   * otherwise the error of the first element on which `f` throws.
   */
  function MapResult<T>(xs: seq<JsValue>, f: JsValue -> Result<T>): (r: Result<seq<T>>)
    ensures r.Ok? <==> forall i :: 0 <= i < |xs| ==> f(xs[i]).Ok?
    ensures r.Ok? ==> |r.value| == |xs| && forall i :: 0 <= i < |xs| ==> f(xs[i]) == Ok(r.value[i])
    ensures r.Err? ==> exists k :: 0 <= k < |xs| && f(xs[k]) == Err(r.error) && forall j :: 0 <= j < k ==> f(xs[j]).Ok?
  {
    if xs == [] then Ok([])
    else
      match f(xs[0])
      case Err(e) => Err(e)
      case Ok(y) =>
        match MapResult(xs[1..], f)
        case Err(e) =>
          assert forall j :: 0 <= j < |xs| - 1 ==> xs[1..][j] == xs[j + 1];
          Err(e)
        case Ok(ys) =>
          assert forall j :: 0 <= j < |xs| - 1 ==> xs[1..][j] == xs[j + 1];
          Ok([y] + ys)
  }

  /**
   * `v.map(f)` on a value the daemon returned: a TypeError when `v` is not an array
   * (`receiver` is the expression's name in the message).
   */
  function JsMap<T>(v: JsValue, receiver: string, f: JsValue -> Result<T>): Result<seq<T>> {
    match v
    case Arr(items) => MapResult(items, f)
    case Undefined => Err(TypeError(CannotRead(v, "map")))
    case Null => Err(TypeError(CannotRead(v, "map")))
    case _ => Err(TypeError(receiver + ".map is not a function"))
  }

  /** `{ id: container.Id, name: container.Names[0], state: container.State }` */
  datatype ContainerSummary = ContainerSummary(id: JsValue, name: JsValue, state: JsValue)

  /** `{ id: image.Id, repoTag: image.RepoTags[0], size: image.Size }` */
  datatype ImageSummary = ImageSummary(id: JsValue, repoTag: JsValue, size: JsValue)

  /** `{ id: network.Id, name: network.Name, driver: network.Driver }` */
  datatype NetworkSummary = NetworkSummary(id: JsValue, name: JsValue, driver: JsValue)

  /**
   * `v.key` on a value already known not to be `null` or `undefined`, so that the
   * read cannot throw.
   */
  function Prop(v: JsValue, key: string): JsValue {
    if v.Obj? then Field(v.fields, key) else Undefined
  }

  /**
   * One container record. Reading `Id` throws on a `null` or `undefined` record,
   * and reading `Names[0]` throws when `Names` is `null` or missing.
   */
  function SummarizeContainer(c: JsValue): (r: Result<ContainerSummary>)
    ensures r.Ok? ==> c.Obj?
    ensures c.Obj? ==> (r.Ok? <==> !(Field(c.fields, "Names").Undefined? || Field(c.fields, "Names").Null?))
    ensures r.Ok? ==> r.value.id == Field(c.fields, "Id") && r.value.state == Field(c.fields, "State")
                      && ElementAt(Field(c.fields, "Names"), 0) == Ok(r.value.name)
  {
    if c.Undefined? || c.Null? then Err(TypeError(CannotRead(c, "Id")))
    else
      match ElementAt(Prop(c, "Names"), 0)
      case Err(e) => Err(e)
      case Ok(name) => Ok(ContainerSummary(Prop(c, "Id"), name, Prop(c, "State")))
  }

  /** One image record; `RepoTags[0]` throws when `RepoTags` is `null` or missing. */
  function SummarizeImage(image: JsValue): (r: Result<ImageSummary>)
    ensures r.Ok? ==> image.Obj?
    ensures image.Obj? ==> (r.Ok? <==> !(Field(image.fields, "RepoTags").Undefined? || Field(image.fields, "RepoTags").Null?))
    ensures r.Ok? ==> r.value.id == Field(image.fields, "Id") && r.value.size == Field(image.fields, "Size")
                      && ElementAt(Field(image.fields, "RepoTags"), 0) == Ok(r.value.repoTag)
  {
    if image.Undefined? || image.Null? then Err(TypeError(CannotRead(image, "Id")))
    else
      match ElementAt(Prop(image, "RepoTags"), 0)
      case Err(e) => Err(e)
      case Ok(repoTag) => Ok(ImageSummary(Prop(image, "Id"), repoTag, Prop(image, "Size")))
  }

  /** One network record; only a `null` or `undefined` record makes it throw. */
  function SummarizeNetwork(network: JsValue): (r: Result<NetworkSummary>)
    ensures r.Err? <==> network.Undefined? || network.Null?
    ensures network.Obj? ==> r == Ok(NetworkSummary(Field(network.fields, "Id"), Field(network.fields, "Name"), Field(network.fields, "Driver")))
  {
    if network.Undefined? || network.Null? then Err(TypeError(CannotRead(network, "Id")))
    else Ok(NetworkSummary(Prop(network, "Id"), Prop(network, "Name"), Prop(network, "Driver")))
  }

  /** `containersData.map(...)`: one summary per container, same order, same length. */
  function ProjectContainers(data: JsValue): (r: Result<seq<ContainerSummary>>)
    ensures r.Ok? <==> data.Arr? && forall i :: 0 <= i < |data.items| ==> SummarizeContainer(data.items[i]).Ok?
    ensures r.Ok? ==> |r.value| == |data.items| && forall i :: 0 <= i < |data.items| ==> SummarizeContainer(data.items[i]) == Ok(r.value[i])
  {
    JsMap(data, "containersData", SummarizeContainer)
  }

  /** `imagesData.map(...)`: one summary per image, same order, same length. */
  function ProjectImages(data: JsValue): (r: Result<seq<ImageSummary>>)
    ensures r.Ok? <==> data.Arr? && forall i :: 0 <= i < |data.items| ==> SummarizeImage(data.items[i]).Ok?
    ensures r.Ok? ==> |r.value| == |data.items| && forall i :: 0 <= i < |data.items| ==> SummarizeImage(data.items[i]) == Ok(r.value[i])
  {
    JsMap(data, "imagesData", SummarizeImage)
  }

  /** `networksData.map(...)`: one summary per network, same order, same length. */
  function ProjectNetworks(data: JsValue): (r: Result<seq<NetworkSummary>>)
    ensures r.Ok? <==> data.Arr? && forall i :: 0 <= i < |data.items| ==> !(data.items[i].Undefined? || data.items[i].Null?)
    ensures r.Ok? ==> |r.value| == |data.items| && forall i :: 0 <= i < |data.items| ==> SummarizeNetwork(data.items[i]) == Ok(r.value[i])
  {
    JsMap(data, "networksData", SummarizeNetwork)
  }

  /** A container list whose records all carry a non-empty `Names` array projects to their first names. */
  lemma {:induction false} ContainerNamesAreFirstNames(data: seq<map<string, JsValue>>, names: seq<seq<JsValue>>)
    requires |names| == |data|
    requires forall i :: 0 <= i < |data| ==> "Names" in data[i] && data[i]["Names"] == Arr(names[i]) && names[i] != []
    ensures var r := ProjectContainers(Arr(seq(|data|, i requires 0 <= i < |data| => Obj(data[i]))));
            r.Ok? && |r.value| == |data| && forall i :: 0 <= i < |data| ==> r.value[i] == ContainerSummary(Field(data[i], "Id"), names[i][0], Field(data[i], "State"))
  {
    var items := seq(|data|, i requires 0 <= i < |data| => Obj(data[i]));
    forall i | 0 <= i < |data| ensures SummarizeContainer(items[i]) == Ok(ContainerSummary(Field(data[i], "Id"), names[i][0], Field(data[i], "State"))) {
      assert items[i] == Obj(data[i]);
      assert Member(items[i], "Names") == Ok(Arr(names[i]));
    }
  }

  const RepoTagMissing := "RepoTag of Docker image not specified."

  /** `getContainers`: GET `/containers/json`. */
  function ListContainersCall(): Call
  {
    Call("/containers/json", map[])
  }

  /** `createContainer`, first request: GET `/images/{repoTag}/json`, the tag interpolated as is. */
  function LookupImageCall(repoTag: JsValue): Call
  {
    Call("/images/" + ToStr(repoTag) + "/json", map["method" := Str("get")])
  }

  /** `createContainer`, second request: POST `/containers/create` with `{ name, Image: imageId }`. */
  function CreateContainerCall(name: JsValue, imageId: JsValue): Call
  {
    Call("/containers/create", map["method" := Str("post"), "data" := Obj(map["name" := name, "Image" := imageId])])
  }

  /** `createContainer`, third request: POST `/containers/{id}/start`. */
  function StartContainerCall(id: JsValue): Call
  {
    Call("/containers/" + ToStr(id) + "/start", map["method" := Str("post")])
  }

  /** `removeContainer`: DELETE `/containers/{id}`. */
  function RemoveContainerCall(id: JsValue): Call
  {
    Call("/containers/" + ToStr(id), map["method" := Str("delete")])
  }

  /** `getImages`: GET `/images/json`. */
  function ListImagesCall(): Call
  {
    Call("/images/json", map[])
  }

  /** `pullImage`: POST `/images/create?fromImage={imageName}`, the name interpolated unencoded. */
  function PullImageCall(imageName: JsValue): Call
  {
    Call("/images/create?fromImage=" + ToStr(imageName), map["method" := Str("post")])
  }

  /** `removeImage`: DELETE `/images/{id}`. */
  function RemoveImageCall(id: JsValue): Call
  {
    Call("/images/" + ToStr(id), map["method" := Str("delete")])
  }

  /** `getNetworks`: GET `/networks`. */
  function ListNetworksCall(): Call
  {
    Call("/networks", map[])
  }

  /** `createNetwork`: POST `/networks/create` with `{ Name: name }`. */
  function CreateNetworkCall(name: JsValue): Call
  {
    Call("/networks/create", map["method" := Str("post"), "data" := Obj(map["Name" := name])])
  }

  /** `removeNetwork`: DELETE `/networks/{id}`. */
  function RemoveNetworkCall(id: JsValue): Call
  {
    Call("/networks/" + ToStr(id), map["method" := Str("delete")])
  }

  /** The three list queries are GETs, the default method, on the default socket. */
  lemma ListRequestsConfigured()
    ensures ListContainersCall().AxiosConfig()["url"] == Str("http:" + "/containers/json")
    ensures ListImagesCall().AxiosConfig()["url"] == Str("http:" + "/images/json")
    ensures ListNetworksCall().AxiosConfig()["url"] == Str("http:" + "/networks")
    ensures ListContainersCall().AxiosConfig()["method"] == Str("get")
    ensures ListImagesCall().AxiosConfig()["method"] == Str("get")
    ensures ListNetworksCall().AxiosConfig()["method"] == Str("get")
    ensures ListContainersCall().AxiosConfig()["socketPath"] == Str(UnixSocketPath)
    ensures ListImagesCall().AxiosConfig()["socketPath"] == Str(UnixSocketPath)
    ensures ListNetworksCall().AxiosConfig()["socketPath"] == Str(UnixSocketPath)
  {
  }

  /** What axios is asked for at each step of `createContainer`. */
  lemma CreateContainerRequestsConfigured(repoTag: JsValue, name: JsValue, imageId: JsValue, id: JsValue)
    ensures LookupImageCall(repoTag).AxiosConfig()["url"] == Str("http:" + ("/images/" + ToStr(repoTag) + "/json"))
    ensures LookupImageCall(repoTag).AxiosConfig()["method"] == Str("get")
    ensures CreateContainerCall(name, imageId).AxiosConfig()["url"] == Str("http:" + "/containers/create")
    ensures CreateContainerCall(name, imageId).AxiosConfig()["method"] == Str("post")
    ensures CreateContainerCall(name, imageId).AxiosConfig()["data"] == Obj(map["name" := name, "Image" := imageId])
    ensures StartContainerCall(id).AxiosConfig()["url"] == Str("http:" + ("/containers/" + ToStr(id) + "/start"))
    ensures StartContainerCall(id).AxiosConfig()["method"] == Str("post")
  {
  }

  /** The three removals are DELETEs on `/{kind}/{id}`, the id interpolated as is. */
  lemma RemoveRequestsConfigured(id: JsValue)
    ensures RemoveContainerCall(id).AxiosConfig()["url"] == Str("http:" + ("/containers/" + ToStr(id)))
    ensures RemoveImageCall(id).AxiosConfig()["url"] == Str("http:" + ("/images/" + ToStr(id)))
    ensures RemoveNetworkCall(id).AxiosConfig()["url"] == Str("http:" + ("/networks/" + ToStr(id)))
    ensures RemoveContainerCall(id).AxiosConfig()["method"] == Str("delete")
    ensures RemoveImageCall(id).AxiosConfig()["method"] == Str("delete")
    ensures RemoveNetworkCall(id).AxiosConfig()["method"] == Str("delete")
  {
  }

  /** `pullImage` and `createNetwork` are POSTs; only the network creation carries a body. */
  lemma PullAndCreateNetworkConfigured(imageName: JsValue, name: JsValue)
    ensures PullImageCall(imageName).AxiosConfig()["url"] == Str("http:" + ("/images/create?fromImage=" + ToStr(imageName)))
    ensures PullImageCall(imageName).AxiosConfig()["method"] == Str("post")
    ensures "data" !in PullImageCall(imageName).AxiosConfig()
    ensures CreateNetworkCall(name).AxiosConfig()["url"] == Str("http:" + "/networks/create")
    ensures CreateNetworkCall(name).AxiosConfig()["method"] == Str("post")
    ensures CreateNetworkCall(name).AxiosConfig()["data"] == Obj(map["Name" := name])
  {
  }

  /** What a sequence of awaited requests produced, and the requests it issued, in order. */
  datatype Run<+T> = Run(result: Result<T>, issued: seq<Call>)

  /** The data the daemon answers with when `c` is issued after `history`. */
  function Reply(d: Daemon, history: seq<Call>, c: Call): Result<JsValue> {
    DataOf(d(history, c))
  }

  /** `response.Id`, after an awaited response. */
  function IdOf(response: Result<JsValue>): Result<JsValue> {
    match response
    case Ok(v) => Member(v, "Id")
    case Err(e) => Err(e)
  }

  /**
   * `createContainer(name, repoTag)` against the daemon `d`, after `history`: the tag
   * guard, then the image lookup, the create and the start, each awaited in turn.
   */
  function CreateContainerRun(d: Daemon, history: seq<Call>, name: JsValue, repoTag: JsValue): (run: Run<JsValue>)
    ensures |run.issued| <= 3
  {
    if !Truthy(repoTag) then Run(Err(Failure(RepoTagMissing, None)), [])
    else
      var lookup := LookupImageCall(repoTag);
      var imageId := IdOf(Reply(d, history, lookup));
      if imageId.Err? then Run(Err(imageId.error), [lookup])
      else
        var create := CreateContainerCall(name, imageId.value);
        var created := Reply(d, history + [lookup], create);
        var id := IdOf(created);
        if id.Err? then Run(Err(id.error), [lookup, create])
        else
          var start := StartContainerCall(id.value);
          var started := Reply(d, history + [lookup, create], start);
          if started.Err? then Run(Err(started.error), [lookup, create, start])
          else Run(created, [lookup, create, start])
  }

  /** A falsy tag fails with the guard's message before any request is issued; a truthy one always issues the lookup. */
  lemma CreateContainerGuard(d: Daemon, history: seq<Call>, name: JsValue, repoTag: JsValue)
    ensures var run := CreateContainerRun(d, history, name, repoTag);
            (!Truthy(repoTag) <==> run.issued == [])
            && (!Truthy(repoTag) ==> run.result == Err(Failure(RepoTagMissing, None)))
            && (Truthy(repoTag) ==> run.issued[0] == LookupImageCall(repoTag))
  {
  }

  /** The create is issued only after a lookup that answered with an image, and carries that image's `Id`. */
  lemma CreateAfterLookup(d: Daemon, history: seq<Call>, name: JsValue, repoTag: JsValue)
    ensures var run := CreateContainerRun(d, history, name, repoTag);
            |run.issued| >= 2 ==>
              var imageId := IdOf(Reply(d, history, run.issued[0]));
              imageId.Ok? && run.issued[1] == CreateContainerCall(name, imageId.value)
  {
  }

  /** The start is issued only after a create that answered with a container, and names that container's `Id`. */
  lemma StartAfterCreate(d: Daemon, history: seq<Call>, name: JsValue, repoTag: JsValue)
    ensures var run := CreateContainerRun(d, history, name, repoTag);
            |run.issued| == 3 ==>
              var id := IdOf(Reply(d, history + [run.issued[0]], run.issued[1]));
              id.Ok? && run.issued[2] == StartContainerCall(id.value)
  {
  }

  /**
   * Success means all three requests were answered, and the result is the create
   * response, not the start response.
   */
  lemma CreateContainerReturnsCreateResponse(d: Daemon, history: seq<Call>, name: JsValue, repoTag: JsValue)
    ensures var run := CreateContainerRun(d, history, name, repoTag);
            run.result.Ok? ==>
              |run.issued| == 3
              && Reply(d, history + [run.issued[0], run.issued[1]], run.issued[2]).Ok?
              && Reply(d, history + [run.issued[0]], run.issued[1]) == Ok(run.result.value)
  {
  }

  /**
   * The converse: when the lookup yields an image, the create yields a container and
   * the start is answered, the run issues exactly those three calls and succeeds with
   * the create response.
   */
  lemma CreateContainerSucceeds(d: Daemon, history: seq<Call>, name: JsValue, repoTag: JsValue, imageId: JsValue, id: JsValue)
    requires Truthy(repoTag)
    requires IdOf(Reply(d, history, LookupImageCall(repoTag))) == Ok(imageId)
    requires IdOf(Reply(d, history + [LookupImageCall(repoTag)], CreateContainerCall(name, imageId))) == Ok(id)
    requires Reply(d, history + [LookupImageCall(repoTag), CreateContainerCall(name, imageId)], StartContainerCall(id)).Ok?
    ensures CreateContainerRun(d, history, name, repoTag)
            == Run(Reply(d, history + [LookupImageCall(repoTag)], CreateContainerCall(name, imageId)),
                   [LookupImageCall(repoTag), CreateContainerCall(name, imageId), StartContainerCall(id)])
  {
  }

  /** The run succeeds exactly when the tag is truthy, both `Id`s are readable and the start is answered. */
  lemma CreateContainerSucceedsIff(d: Daemon, history: seq<Call>, name: JsValue, repoTag: JsValue)
    ensures var run := CreateContainerRun(d, history, name, repoTag);
            var lookup := LookupImageCall(repoTag);
            var imageId := IdOf(Reply(d, history, lookup));
            run.result.Ok? <==>
              Truthy(repoTag) && imageId.Ok?
              && IdOf(Reply(d, history + [lookup], CreateContainerCall(name, imageId.value))).Ok?
              && Reply(d, history + [lookup, CreateContainerCall(name, imageId.value)],
                       StartContainerCall(IdOf(Reply(d, history + [lookup], CreateContainerCall(name, imageId.value))).value)).Ok?
  {
  }

  /**
   * A run that stops after the lookup fails with the error of reading its `Id`, and
   * one that stops after the create with the error of reading the created `Id`.
   */
  lemma EarlyFailuresReRaised(d: Daemon, history: seq<Call>, name: JsValue, repoTag: JsValue)
    ensures var run := CreateContainerRun(d, history, name, repoTag);
            (|run.issued| == 1 ==>
               IdOf(Reply(d, history, run.issued[0])).Err?
               && run.result == Err(IdOf(Reply(d, history, run.issued[0])).error))
            && (|run.issued| == 2 ==>
                  IdOf(Reply(d, history + [run.issued[0]], run.issued[1])).Err?
                  && run.result == Err(IdOf(Reply(d, history + [run.issued[0]], run.issued[1])).error))
  {
  }

  /** Every failure stops the sequence; one that comes after the start was issued is the start's own error, unchanged. */
  lemma StartFailureReRaised(d: Daemon, history: seq<Call>, name: JsValue, repoTag: JsValue)
    ensures var run := CreateContainerRun(d, history, name, repoTag);
            |run.issued| == 3 && run.result.Err? ==>
              Reply(d, history + [run.issued[0], run.issued[1]], run.issued[2]) == Err(run.result.error)
  {
  }

  /** The service functions, issuing their requests through one recorded channel to the daemon. */
  class DockerClient {
    const daemon: Daemon
    /** Every call issued so far, oldest first. */
    var trace: seq<Call>

    constructor (daemon: Daemon)
      ensures this.daemon == daemon && trace == []
    {
      this.daemon := daemon;
      trace := [];
    }

    /**
     * `makeDockerRequest(apiPath, options)`: one request, configured as `Call(apiPath,
     * options).AxiosConfig()`, recorded, and answered with the response's data or its error.
     */
    method MakeDockerRequest(apiPath: string, options: Config) returns (r: Result<JsValue>)
      modifies this
      ensures trace == old(trace) + [Call(apiPath, options)]
      ensures r == Reply(daemon, old(trace), Call(apiPath, options))
    {
      var call := Call(apiPath, options);
      var response := daemon(trace, call);
      trace := trace + [call];
      r := DataOf(response);
    }

    method GetContainers() returns (r: Result<seq<ContainerSummary>>)
      modifies this
      ensures trace == old(trace) + [ListContainersCall()]
      ensures r == Bind(Reply(daemon, old(trace), ListContainersCall()), ProjectContainers)
    {
      var containersData := MakeDockerRequest("/containers/json", map[]);
      r := Bind(containersData, ProjectContainers);
    }

    method CreateContainer(name: JsValue, repoTag: JsValue) returns (r: Result<JsValue>)
      modifies this
      ensures var run := CreateContainerRun(daemon, old(trace), name, repoTag);
              trace == old(trace) + run.issued && r == run.result
    {
      if !Truthy(repoTag) {
        return Err(Failure(RepoTagMissing, None));
      }
      var imageIdResponse := MakeDockerRequest("/images/" + ToStr(repoTag) + "/json", map["method" := Str("get")]);
      var imageId := IdOf(imageIdResponse);
      if imageId.Err? {
        return Err(imageId.error);
      }
      var createContainerResponse := MakeDockerRequest("/containers/create",
        map["method" := Str("post"), "data" := Obj(map["name" := name, "Image" := imageId.value])]);
      var createdId := IdOf(createContainerResponse);
      if createdId.Err? {
        return Err(createdId.error);
      }
      assert trace == old(trace) + [LookupImageCall(repoTag), CreateContainerCall(name, imageId.value)];
      var startContainerResponse := MakeDockerRequest("/containers/" + ToStr(createdId.value) + "/start", map["method" := Str("post")]);
      if startContainerResponse.Err? {
        return Err(startContainerResponse.error);
      }
      r := createContainerResponse;
    }

    method RemoveContainer(id: JsValue) returns (r: Result<JsValue>)
      modifies this
      ensures trace == old(trace) + [RemoveContainerCall(id)]
      ensures r == Reply(daemon, old(trace), RemoveContainerCall(id))
    {
      r := MakeDockerRequest("/containers/" + ToStr(id), map["method" := Str("delete")]);
    }

    method GetImages() returns (r: Result<seq<ImageSummary>>)
      modifies this
      ensures trace == old(trace) + [ListImagesCall()]
      ensures r == Bind(Reply(daemon, old(trace), ListImagesCall()), ProjectImages)
    {
      var imagesData := MakeDockerRequest("/images/json", map[]);
      r := Bind(imagesData, ProjectImages);
    }

    method PullImage(imageName: JsValue) returns (r: Result<JsValue>)
      modifies this
      ensures trace == old(trace) + [PullImageCall(imageName)]
      ensures r == Reply(daemon, old(trace), PullImageCall(imageName))
    {
      r := MakeDockerRequest("/images/create?fromImage=" + ToStr(imageName), map["method" := Str("post")]);
    }

    method RemoveImage(id: JsValue) returns (r: Result<JsValue>)
      modifies this
      ensures trace == old(trace) + [RemoveImageCall(id)]
      ensures r == Reply(daemon, old(trace), RemoveImageCall(id))
    {
      r := MakeDockerRequest("/images/" + ToStr(id), map["method" := Str("delete")]);
    }

    method GetNetworks() returns (r: Result<seq<NetworkSummary>>)
      modifies this
      ensures trace == old(trace) + [ListNetworksCall()]
      ensures r == Bind(Reply(daemon, old(trace), ListNetworksCall()), ProjectNetworks)
    {
      var networksData := MakeDockerRequest("/networks", map[]);
      r := Bind(networksData, ProjectNetworks);
    }

    method CreateNetwork(name: JsValue) returns (r: Result<JsValue>)
      modifies this
      ensures trace == old(trace) + [CreateNetworkCall(name)]
      ensures r == Reply(daemon, old(trace), CreateNetworkCall(name))
    {
      r := MakeDockerRequest("/networks/create", map["method" := Str("post"), "data" := Obj(map["Name" := name])]);
    }

    method RemoveNetwork(id: JsValue) returns (r: Result<JsValue>)
      modifies this
      ensures trace == old(trace) + [RemoveNetworkCall(id)]
      ensures r == Reply(daemon, old(trace), RemoveNetworkCall(id))
    {
      r := MakeDockerRequest("/networks/" + ToStr(id), map["method" := Str("delete")]);
    }
  }
}
