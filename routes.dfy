/**
 * The Express application of the route file: its eleven routes in registration
 * order, first-match dispatch over them, the Docker request each handler issues,
 * the `/images/list` flattening of `RepoTags`, and the response every handler sends,
 * including the shared error rule `error.response?.status || 500`.
 */
module Routes {
  import opened JsValues
  import opened DockerRequest
  import opened DockerService

  /** An HTTP request method, as far as routing distinguishes them. */
  datatype Verb = Get | Head | Post | Delete | OtherVerb(name: string)

  /** One `/`-separated piece of a route path: literal text or a `:name` parameter. */
  datatype Segment = Lit(text: string) | Param(name: string)

  /** What each registered handler does. */
  datatype Action =
    | ListContainers
    | CreateAndStartContainer
    | RemoveContainer
    | ListImages
    | PullImage
    | RemoveImage
    | ListImageTags
    | InspectImage
    | ListNetworks
    | CreateNetwork
    | RemoveNetwork

  /** `app.<verb>(path, handler)`. */
  datatype Route = Route(verb: Verb, pattern: seq<Segment>, action: Action)

  /** The routes, in the order the file registers them. */
  const RouteTable: seq<Route> := [
    Route(Get, [Lit("containers")], ListContainers),
    Route(Post, [Lit("containers")], CreateAndStartContainer),
    Route(Delete, [Lit("containers"), Param("id")], RemoveContainer),
    Route(Get, [Lit("images")], ListImages),
    Route(Post, [Lit("images")], PullImage),
    Route(Delete, [Lit("images"), Param("id")], RemoveImage),
    Route(Get, [Lit("images"), Lit("list")], ListImageTags),
    Route(Get, [Lit("images"), Param("id")], InspectImage),
    Route(Get, [Lit("networks")], ListNetworks),
    Route(Post, [Lit("networks")], CreateNetwork),
    Route(Delete, [Lit("networks"), Param("id")], RemoveNetwork)
  ]

  /** Route paths match case-insensitively. */
  predicate EqualsIgnoringCase(a: string, b: string) {
    LowerAscii(a) == LowerAscii(b)
  }

  /** `app.get` also answers `HEAD`; every other verb answers only itself. */
  predicate VerbMatches(routeVerb: Verb, requestVerb: Verb) {
    routeVerb == requestVerb || (routeVerb == Get && requestVerb == Head)
  }

  predicate SegmentMatches(s: Segment, text: string) {
    match s
    case Lit(t) => EqualsIgnoringCase(text, t)
    case Param(_) => text != ""
  }

  /**
   * The parameters bound when `path` (the request path split at `/`, without the
   * leading one) has exactly the segments of `pattern`; a parameter never matches
   * an empty segment. A parameter named twice keeps its last capture, as Express
   * assigns the captures left to right (see `MatchSegmentsBinds`).
   */
  function MatchSegments(pattern: seq<Segment>, path: seq<string>): (r: Option<map<string, string>>)
    ensures r.Some? <==> |pattern| == |path| && forall i :: 0 <= i < |path| ==> SegmentMatches(pattern[i], path[i])
    ensures r.Some? ==> forall n :: n in r.value ==> exists i :: 0 <= i < |pattern| && pattern[i] == Param(n)
    decreases |pattern|
  {
    if pattern == [] then (if path == [] then Some(map[]) else None)
    else if path == [] || !SegmentMatches(pattern[0], path[0]) then None
    else
      assert |pattern| == |path| ==>
        forall i :: 0 <= i < |path| - 1 ==> pattern[1..][i] == pattern[i + 1] && path[1..][i] == path[i + 1];
      match MatchSegments(pattern[1..], path[1..])
      case None => None
      case Some(m) =>
        if pattern[0].Param? && pattern[0].name !in m then Some(m[pattern[0].name := path[0]]) else Some(m)
  }

  /** The last occurrence of each parameter in the pattern is bound to the path segment at its position. */
  lemma {:induction false} MatchSegmentsBinds(pattern: seq<Segment>, path: seq<string>, i: nat)
    requires MatchSegments(pattern, path).Some?
    requires i < |pattern| && pattern[i].Param?
    requires forall k :: i < k < |pattern| ==> pattern[k] != pattern[i]
    ensures pattern[i].name in MatchSegments(pattern, path).value
    ensures MatchSegments(pattern, path).value[pattern[i].name] == path[i]
    decreases |pattern|
  {
    var m := MatchSegments(pattern[1..], path[1..]).value;
    if i == 0 {
      forall j | 0 <= j < |pattern[1..]| ensures pattern[1..][j] != pattern[0] {
        assert pattern[1..][j] == pattern[j + 1];
      }
    } else {
      forall k | i - 1 < k < |pattern[1..]| ensures pattern[1..][k] != pattern[1..][i - 1] {
        assert pattern[1..][k] == pattern[k + 1];
      }
      MatchSegmentsBinds(pattern[1..], path[1..], i - 1);
      assert path[1..][i - 1] == path[i];
    }
  }

  /** A route path matches with or without one trailing `/` (non-strict routing). */
  function MatchPath(pattern: seq<Segment>, path: seq<string>): Option<map<string, string>> {
    match MatchSegments(pattern, path)
    case Some(m) => Some(m)
    case None =>
      if |path| > 0 && path[|path| - 1] == "" then MatchSegments(pattern, path[..|path| - 1]) else None
  }

  function MatchRoute(route: Route, verb: Verb, path: seq<string>): Option<map<string, string>> {
    if VerbMatches(route.verb, verb) then MatchPath(route.pattern, path) else None
  }

  /** The route that handles a request: its position in the table, its action and its parameters. */
  datatype Hit = Hit(index: nat, action: Action, params: map<string, string>)

  /** The first route at or after `from` that matches. */
  function FirstMatch(table: seq<Route>, from: nat, verb: Verb, path: seq<string>): (r: Option<Hit>)
    requires from <= |table|
    ensures r.Some? ==> from <= r.value.index < |table|
                        && r.value.action == table[r.value.index].action
                        && MatchRoute(table[r.value.index], verb, path) == Some(r.value.params)
                        && forall j :: from <= j < r.value.index ==> MatchRoute(table[j], verb, path).None?
    ensures r.None? <==> forall j :: from <= j < |table| ==> MatchRoute(table[j], verb, path).None?
    decreases |table| - from
  {
    if from == |table| then None
    else
      match MatchRoute(table[from], verb, path)
      case Some(params) => Some(Hit(from, table[from].action, params))
      case None => FirstMatch(table, from + 1, verb, path)
  }

  /** Express dispatch: the first registered route that matches handles the request. */
  function Dispatch(verb: Verb, path: seq<string>): Option<Hit> {
    FirstMatch(RouteTable, 0, verb, path)
  }

  /** Dispatch selects a route exactly when it matches and no earlier route does. */
  lemma DispatchIsFirstMatch(verb: Verb, path: seq<string>, i: nat)
    requires i < |RouteTable|
    ensures (Dispatch(verb, path).Some? && Dispatch(verb, path).value.index == i)
            <==> (MatchRoute(RouteTable[i], verb, path).Some?
                  && forall j :: 0 <= j < i ==> MatchRoute(RouteTable[j], verb, path).None?)
  {
  }

  /**
   * A route cannot match a request of another verb, a path with more segments than
   * it has (beyond one trailing empty one), or a first segment of another length than its literal.
   */
  lemma RouteMisses(route: Route, verb: Verb, path: seq<string>)
    requires !VerbMatches(route.verb, verb)
             || |path| > |route.pattern| + 1
             || (|path| == |route.pattern| + 1 && path[|path| - 1] != "")
             || (|route.pattern| > 0 && route.pattern[0].Lit? && |path| > 0 && |path[0]| != |route.pattern[0].text|)
    ensures MatchRoute(route, verb, path).None?
  {
    if VerbMatches(route.verb, verb) && |path| <= |route.pattern| + 1 && !(|path| == |route.pattern| + 1 && path[|path| - 1] != "") {
      var t := route.pattern[0].text;
      assert !SegmentMatches(route.pattern[0], path[0]) by {
        assert |LowerAscii(path[0])| != |LowerAscii(t)|;
      }
      if |path| > 0 && path[|path| - 1] == "" && |path| > 1 {
        assert path[..|path| - 1][0] == path[0];
      }
    }
  }

  /** Dispatch reaches route `i` when it matches with `params` and no earlier route matches. */
  lemma DispatchesTo(verb: Verb, path: seq<string>, i: nat, params: map<string, string>)
    requires i < |RouteTable|
    requires forall j :: 0 <= j < i ==> MatchRoute(RouteTable[j], verb, path).None?
    requires MatchRoute(RouteTable[i], verb, path) == Some(params)
    ensures Dispatch(verb, path) == Some(Hit(i, RouteTable[i].action, params))
  {
    DispatchIsFirstMatch(verb, path, i);
  }

  /** No literal segment of the pattern is empty. */
  predicate NonEmptyLiterals(pattern: seq<Segment>) {
    forall i :: 0 <= i < |pattern| && pattern[i].Lit? ==> pattern[i].text != ""
  }

  /** For a pattern without empty literals, one extra trailing `/` changes nothing. */
  lemma MatchIgnoresTrailingSlash(route: Route, verb: Verb, path: seq<string>)
    requires NonEmptyLiterals(route.pattern)
    requires path == [] || path[|path| - 1] != ""
    ensures MatchRoute(route, verb, path + [""]) == MatchRoute(route, verb, path)
  {
    var p := route.pattern;
    var q := path + [""];
    assert q[|path|] == "" && q[..|q| - 1] == path;
  }

  /** Past position `from`, a path with one trailing `/` dispatches as the path without it. */
  lemma {:induction false} FirstMatchIgnoresTrailingSlash(table: seq<Route>, from: nat, verb: Verb, path: seq<string>)
    requires from <= |table|
    requires forall j :: 0 <= j < |table| ==> NonEmptyLiterals(table[j].pattern)
    requires path == [] || path[|path| - 1] != ""
    ensures FirstMatch(table, from, verb, path + [""]) == FirstMatch(table, from, verb, path)
    decreases |table| - from
  {
    if from < |table| {
      MatchIgnoresTrailingSlash(table[from], verb, path);
      FirstMatchIgnoresTrailingSlash(table, from + 1, verb, path);
    }
  }

  /** Routing is not strict: `/images/` is `/images`, `/containers/abc/` is `/containers/abc`. */
  lemma TrailingSlashIgnored(verb: Verb, path: seq<string>)
    requires path == [] || path[|path| - 1] != ""
    ensures Dispatch(verb, path + [""]) == Dispatch(verb, path)
  {
    forall j | 0 <= j < |RouteTable| ensures NonEmptyLiterals(RouteTable[j].pattern) {
    }
    FirstMatchIgnoresTrailingSlash(RouteTable, 0, verb, path);
  }

  /** `GET /containers` reaches the first route. */
  lemma ContainerListDispatch()
    ensures Dispatch(Get, ["containers"]) == Some(Hit(0, ListContainers, map[]))
  {
    DispatchesTo(Get, ["containers"], 0, map[]);
  }

  /** `POST /containers` reaches the create-and-start route. */
  lemma ContainerCreateDispatch()
    ensures Dispatch(Post, ["containers"]) == Some(Hit(1, CreateAndStartContainer, map[]))
  {
    RouteMisses(RouteTable[0], Post, ["containers"]);
    DispatchesTo(Post, ["containers"], 1, map[]);
  }

  /** `DELETE /containers/:id` binds any non-empty id. */
  lemma ContainerRemoveDispatch(id: string)
    requires id != ""
    ensures Dispatch(Delete, ["containers", id]) == Some(Hit(2, RemoveContainer, map["id" := id]))
  {
    forall j | 0 <= j < 2 ensures MatchRoute(RouteTable[j], Delete, ["containers", id]).None? {
      RouteMisses(RouteTable[j], Delete, ["containers", id]);
    }
    DispatchesTo(Delete, ["containers", id], 2, map["id" := id]);
  }

  /** `GET /images` reaches the image list. */
  lemma ImageListDispatch()
    ensures Dispatch(Get, ["images"]) == Some(Hit(3, ListImages, map[]))
  {
    forall j | 0 <= j < 3 ensures MatchRoute(RouteTable[j], Get, ["images"]).None? {
      RouteMisses(RouteTable[j], Get, ["images"]);
    }
    DispatchesTo(Get, ["images"], 3, map[]);
  }

  /** `POST /images` reaches the pull route. */
  lemma ImagePullDispatch()
    ensures Dispatch(Post, ["images"]) == Some(Hit(4, PullImage, map[]))
  {
    forall j | 0 <= j < 4 ensures MatchRoute(RouteTable[j], Post, ["images"]).None? {
      RouteMisses(RouteTable[j], Post, ["images"]);
    }
    DispatchesTo(Post, ["images"], 4, map[]);
  }

  /** `DELETE /images/:id` binds any non-empty id. */
  lemma ImageRemoveDispatch(id: string)
    requires id != ""
    ensures Dispatch(Delete, ["images", id]) == Some(Hit(5, RemoveImage, map["id" := id]))
  {
    forall j | 0 <= j < 5 ensures MatchRoute(RouteTable[j], Delete, ["images", id]).None? {
      RouteMisses(RouteTable[j], Delete, ["images", id]);
    }
    DispatchesTo(Delete, ["images", id], 5, map["id" := id]);
  }

  /**
   * `GET /images/list` is registered before `GET /images/:id`, so a second segment
   * spelling `list` (in any case) reaches the tag list, and every other non-empty
   * one is taken as an image id.
   */
  lemma ImageListShadowsImageId(id: string)
    requires id != ""
    ensures Dispatch(Get, ["images", id])
            == if EqualsIgnoringCase(id, "list") then Some(Hit(6, ListImageTags, map[]))
               else Some(Hit(7, InspectImage, map["id" := id]))
  {
    var path := ["images", id];
    forall j | 0 <= j < 6 ensures MatchRoute(RouteTable[j], Get, path).None? {
      RouteMisses(RouteTable[j], Get, path);
    }
    if EqualsIgnoringCase(id, "list") {
      DispatchesTo(Get, path, 6, map[]);
    } else {
      assert MatchSegments([Lit("list")], [id]).None?;
      DispatchesTo(Get, path, 7, map["id" := id]);
    }
  }

  /** The same routes with `/images/:id` registered first would treat `list` as an image id. */
  lemma RegistrationOrderDecides()
    ensures var swapped := RouteTable[..6] + [RouteTable[7], RouteTable[6]] + RouteTable[8..];
            FirstMatch(swapped, 0, Get, ["images", "list"]) == Some(Hit(6, InspectImage, map["id" := "list"]))
  {
    var swapped := RouteTable[..6] + [RouteTable[7], RouteTable[6]] + RouteTable[8..];
    var path := ["images", "list"];
    forall j | 0 <= j < 6 ensures MatchRoute(swapped[j], Get, path).None? {
      assert swapped[j] == RouteTable[j];
      RouteMisses(RouteTable[j], Get, path);
    }
    assert swapped[6] == RouteTable[7];
    assert MatchRoute(swapped[6], Get, path) == Some(map["id" := "list"]);
  }

  /** `GET /networks` reaches the network list. */
  lemma NetworkListDispatch()
    ensures Dispatch(Get, ["networks"]) == Some(Hit(8, ListNetworks, map[]))
  {
    forall j | 0 <= j < 8 ensures MatchRoute(RouteTable[j], Get, ["networks"]).None? {
      RouteMisses(RouteTable[j], Get, ["networks"]);
    }
    DispatchesTo(Get, ["networks"], 8, map[]);
  }

  /** `POST /networks` reaches the network creation. */
  lemma NetworkCreateDispatch()
    ensures Dispatch(Post, ["networks"]) == Some(Hit(9, CreateNetwork, map[]))
  {
    forall j | 0 <= j < 9 ensures MatchRoute(RouteTable[j], Post, ["networks"]).None? {
      RouteMisses(RouteTable[j], Post, ["networks"]);
    }
    DispatchesTo(Post, ["networks"], 9, map[]);
  }

  /** `DELETE /networks/:id` binds any non-empty id. */
  lemma NetworkRemoveDispatch(id: string)
    requires id != ""
    ensures Dispatch(Delete, ["networks", id]) == Some(Hit(10, RemoveNetwork, map["id" := id]))
  {
    forall j | 0 <= j < 10 ensures MatchRoute(RouteTable[j], Delete, ["networks", id]).None? {
      RouteMisses(RouteTable[j], Delete, ["networks", id]);
    }
    DispatchesTo(Delete, ["networks", id], 10, map["id" := id]);
  }

  /** `const { id } = req.params`. */
  function ParamValue(params: map<string, string>, name: string): JsValue {
    if name in params then Str(params[name]) else Undefined
  }

  /** GET `/images/json?all=0`, the query behind `/images/list`. */
  function ListImageTagsCall(): Call {
    Call("/images/json?all=0", map["method" := Str("get")])
  }

  /** What `[x].flat()` contributes for the element `x`: an array's elements, anything else itself. */
  function Spread(x: JsValue): seq<JsValue> {
    if x.Arr? then x.items else [x]
  }

  /** `xs.flat()`: one level of nesting removed, order kept; `undefined` elements are kept. */
  function Flat(xs: seq<JsValue>): seq<JsValue> {
    if xs == [] then [] else Spread(xs[0]) + Flat(xs[1..])
  }

  /** Flattening distributes over concatenation, so each image's tags stay together and in image order. */
  lemma {:induction false} FlatAppend(xs: seq<JsValue>, ys: seq<JsValue>)
    ensures Flat(xs + ys) == Flat(xs) + Flat(ys)
    decreases |xs|
  {
    if xs == [] {
      assert xs + ys == ys;
    } else {
      assert (xs + ys)[1..] == xs[1..] + ys;
      FlatAppend(xs[1..], ys);
    }
  }

  /** A value is in the flattened list exactly when it is a tag of some image, or a non-array entry itself. */
  lemma {:induction false} FlatMembers(xs: seq<JsValue>, v: JsValue)
    ensures v in Flat(xs) <==> exists i :: 0 <= i < |xs| && v in Spread(xs[i])
    decreases |xs|
  {
    if xs != [] {
      FlatMembers(xs[1..], v);
      if v in Flat(xs[1..]) {
        var i :| 0 <= i < |xs[1..]| && v in Spread(xs[1..][i]);
        assert v in Spread(xs[i + 1]);
      }
      if exists i :: 0 <= i < |xs| && v in Spread(xs[i]) {
        var i :| 0 <= i < |xs| && v in Spread(xs[i]);
        if i > 0 {
          assert xs[1..][i - 1] == xs[i];
        }
      }
    }
  }

  /** An image without `RepoTags` contributes one `undefined`: `flat` does not drop it. */
  lemma FlatKeepsUndefined(a: JsValue, b: JsValue)
    ensures Flat([Arr([a, b]), Undefined]) == [a, b, Undefined]
  {
    assert [Arr([a, b]), Undefined][1..] == [Undefined];
    assert [Undefined][1..] == [];
  }

  function RepoTagsOf(image: JsValue): Result<JsValue> {
    Member(image, "RepoTags")
  }

  /**
   * `listImagesResponse.map((image) => image.RepoTags).flat()`: it throws unless the
   * response is an array with no `null` or `undefined` entry, and otherwise is the
   * one-level concatenation of every image's `RepoTags`, in image order.
   */
  function RepoTagList(listImagesResponse: JsValue): (r: Result<JsValue>)
    ensures r.Ok? <==> listImagesResponse.Arr?
                       && forall i :: 0 <= i < |listImagesResponse.items| ==>
                            !(listImagesResponse.items[i].Undefined? || listImagesResponse.items[i].Null?)
    ensures r.Ok? ==> exists tags: seq<JsValue> ::
                        |tags| == |listImagesResponse.items|
                        && (forall i :: 0 <= i < |tags| ==> Member(listImagesResponse.items[i], "RepoTags") == Ok(tags[i]))
                        && r.value == Arr(Flat(tags))
  {
    match JsMap(listImagesResponse, "listImagesResponse", RepoTagsOf)
    case Ok(tags) => Ok(Arr(Flat(tags)))
    case Err(e) => Err(e)
  }

  /** What one awaited request produced. */
  function Single(d: Daemon, history: seq<Call>, c: Call): Run<JsValue> {
    Run(Reply(d, history, c), [c])
  }

  /** The one request every handler but `POST /containers` issues. */
  function RouteCall(action: Action, params: map<string, string>, body: map<string, JsValue>): Call
    requires action != CreateAndStartContainer
  {
    match action
    case ListContainers => ListContainersCall()
    case RemoveContainer => RemoveContainerCall(ParamValue(params, "id"))
    case ListImages => ListImagesCall()
    case PullImage => PullImageCall(Field(body, "imageName"))
    case RemoveImage => RemoveImageCall(ParamValue(params, "id"))
    case ListImageTags => ListImageTagsCall()
    case InspectImage => LookupImageCall(ParamValue(params, "id"))
    case ListNetworks => ListNetworksCall()
    case CreateNetwork => CreateNetworkCall(Field(body, "name"))
    case RemoveNetwork => RemoveNetworkCall(ParamValue(params, "id"))
  }

  /**
   * The route table's Docker side: which path each route asks for, with which
   * method and data; the `:id` parameter and the body's fields are interpolated as they are.
   */
  lemma RouteDockerRequests(id: string, params: map<string, string>, body: map<string, JsValue>)
    ensures RouteCall(ListContainers, params, body) == Call("/containers/json", map[])
    ensures RouteCall(ListImages, params, body) == Call("/images/json", map[])
    ensures RouteCall(ListNetworks, params, body) == Call("/networks", map[])
    ensures RouteCall(InspectImage, map["id" := id], body) == Call("/images/" + id + "/json", map["method" := Str("get")])
    ensures RouteCall(RemoveContainer, map["id" := id], body) == Call("/containers/" + id, map["method" := Str("delete")])
    ensures RouteCall(RemoveImage, map["id" := id], body) == Call("/images/" + id, map["method" := Str("delete")])
    ensures RouteCall(RemoveNetwork, map["id" := id], body) == Call("/networks/" + id, map["method" := Str("delete")])
    ensures RouteCall(PullImage, params, body)
            == Call("/images/create?fromImage=" + ToStr(Field(body, "imageName")), map["method" := Str("post")])
    ensures RouteCall(CreateNetwork, params, body)
            == Call("/networks/create", map["method" := Str("post"), "data" := Obj(map["Name" := Field(body, "name")])])
  {
  }

  /**
   * The body of each handler against the daemon `d`, after `history`: the requests
   * it issues and what it then hands to `res.json`, or the error it catches. Only
   * `/images/list` transforms the daemon's answer; the other routes pass it on.
   */
  function HandleRun(d: Daemon, history: seq<Call>, action: Action, params: map<string, string>, body: map<string, JsValue>): Run<JsValue> {
    if action == CreateAndStartContainer then
      CreateContainerRun(d, history, Field(body, "name"), Field(body, "repoTag"))
    else
      var c := RouteCall(action, params, body);
      if action == ListImageTags then Run(Bind(Reply(d, history, c), RepoTagList), [c])
      else Single(d, history, c)
  }

  /** `error.response?.status || 500`: the upstream status when there is one and it is not 0. */
  function ErrorStatus(e: Failure): (status: int)
    ensures status != 0
    ensures e.responseStatus.Some? && e.responseStatus.value != 0 ==> status == e.responseStatus.value
    ensures !(e.responseStatus.Some? && e.responseStatus.value != 0) ==> status == 500
  {
    match e.responseStatus
    case Some(s) => if s != 0 then s else 500
    case None => 500
  }

  /** A status and the value passed to `res.json`. */
  datatype JsonReply = JsonReply(status: int, body: JsValue)

  /** `res.json(value)` on success; `res.status(...).json({ error: error.message })` on failure. */
  function Respond(r: Result<JsValue>): (reply: JsonReply)
    ensures r.Ok? ==> reply == JsonReply(200, r.value)
    ensures r.Err? ==> reply.status == ErrorStatus(r.error) && reply.body == Obj(map["error" := Str(r.error.message)])
  {
    match r
    case Ok(v) => JsonReply(200, v)
    case Err(e) => JsonReply(ErrorStatus(e), Obj(map["error" := Str(e.message)]))
  }

  /**
   * Every route but `POST /containers` issues exactly its one request; only `/images/list`
   * transforms the answer, the others respond with the daemon's data as it is.
   */
  lemma SingleRequestRoutes(d: Daemon, history: seq<Call>, action: Action, params: map<string, string>, body: map<string, JsValue>)
    requires action != CreateAndStartContainer
    ensures var run := HandleRun(d, history, action, params, body);
            run.issued == [RouteCall(action, params, body)]
            && run.result == if action == ListImageTags then Bind(Reply(d, history, run.issued[0]), RepoTagList)
                             else Reply(d, history, run.issued[0])
  {
  }

  /** `GET /images/list` issues one query and answers with the flattened tags, or the error it caught. */
  lemma ImageTagsRoute(d: Daemon, history: seq<Call>, params: map<string, string>, body: map<string, JsValue>)
    ensures var run := HandleRun(d, history, ListImageTags, params, body);
            run.issued == [ListImageTagsCall()]
            && ListImageTagsCall().AxiosConfig()["url"] == Str("http:" + "/images/json?all=0")
            && ListImageTagsCall().AxiosConfig()["method"] == Str("get")
            && (run.result.Ok? <==> Reply(d, history, ListImageTagsCall()).Ok? && RepoTagList(Reply(d, history, ListImageTagsCall()).value).Ok?)
  {
  }

  /** `POST /containers` without a truthy `repoTag` answers 500 with the guard's message and issues nothing. */
  lemma CreateRouteWithoutRepoTag(d: Daemon, history: seq<Call>, params: map<string, string>, body: map<string, JsValue>)
    requires !Truthy(Field(body, "repoTag"))
    ensures var run := HandleRun(d, history, CreateAndStartContainer, params, body);
            run.issued == [] && Respond(run.result) == JsonReply(500, Obj(map["error" := Str(RepoTagMissing)]))
  {
  }

  /**
   * `POST /containers` answers 200 only after all three requests were answered, and
   * its body is the create response.
   */
  lemma CreateRouteRespondsWithCreateResponse(d: Daemon, history: seq<Call>, params: map<string, string>, body: map<string, JsValue>)
    ensures var run := HandleRun(d, history, CreateAndStartContainer, params, body);
            run.result.Ok? ==>
              |run.issued| == 3
              && run.issued[0] == LookupImageCall(Field(body, "repoTag"))
              && Respond(run.result) == JsonReply(200, Reply(d, history + [run.issued[0]], run.issued[1]).value)
  {
    CreateContainerGuard(d, history, Field(body, "name"), Field(body, "repoTag"));
    CreateContainerReturnsCreateResponse(d, history, Field(body, "name"), Field(body, "repoTag"));
  }

  /**
   * The converse: when the lookup yields an image, the create yields a container and
   * the start is answered, `POST /containers` issues exactly those three calls and
   * answers 200 with the create response.
   */
  lemma CreateRouteSucceeds(d: Daemon, history: seq<Call>, params: map<string, string>, body: map<string, JsValue>, imageId: JsValue, id: JsValue)
    requires Truthy(Field(body, "repoTag"))
    requires IdOf(Reply(d, history, LookupImageCall(Field(body, "repoTag")))) == Ok(imageId)
    requires IdOf(Reply(d, history + [LookupImageCall(Field(body, "repoTag"))], CreateContainerCall(Field(body, "name"), imageId))) == Ok(id)
    requires Reply(d, history + [LookupImageCall(Field(body, "repoTag")), CreateContainerCall(Field(body, "name"), imageId)], StartContainerCall(id)).Ok?
    ensures var run := HandleRun(d, history, CreateAndStartContainer, params, body);
            var created := Reply(d, history + [LookupImageCall(Field(body, "repoTag"))], CreateContainerCall(Field(body, "name"), imageId));
            run.issued == [LookupImageCall(Field(body, "repoTag")), CreateContainerCall(Field(body, "name"), imageId), StartContainerCall(id)]
            && created.Ok? && Respond(run.result) == JsonReply(200, created.value)
  {
    CreateContainerSucceeds(d, history, Field(body, "name"), Field(body, "repoTag"), imageId, id);
  }

  /** Every failed handler answers with the upstream status, or 500 when there is none, and `{ error: message }`. */
  lemma ErrorResponses(d: Daemon, history: seq<Call>, action: Action, params: map<string, string>, body: map<string, JsValue>)
    ensures var run := HandleRun(d, history, action, params, body);
            run.result.Err? ==>
              var reply := Respond(run.result);
              reply.body == Obj(map["error" := Str(run.result.error.message)])
              && (run.result.error.responseStatus.None? ==> reply.status == 500)
              && (run.result.error.responseStatus == Some(0) ==> reply.status == 500)
              && (run.result.error.responseStatus.Some? && run.result.error.responseStatus.value != 0 ==>
                    reply.status == run.result.error.responseStatus.value)
  {
  }

  /** The Express response object a handler writes to. */
  class ExpressResponse {
    var statusCode: int
    /** The value passed to `res.json`, once it has been called. */
    var sent: Option<JsValue>

    constructor ()
      ensures statusCode == 200 && sent == None
    {
      statusCode := 200;
      sent := None;
    }

    /** `res.status(code)`. */
    method Status(code: int)
      modifies this
      ensures statusCode == code && sent == old(sent)
    {
      statusCode := code;
    }

    /** `res.json(value)`: it may be called once per response. */
    method Json(value: JsValue)
      requires sent == None
      modifies this
      ensures sent == Some(value) && statusCode == old(statusCode)
    {
      sent := Some(value);
    }
  }

  /**
   * One handler run on a fresh response: the requests go out through `client` (the
   * route file's own copy of `makeDockerRequest` behaves as the service's), and the
   * response ends with what `Respond` says about their result.
   */
  method Handle(client: DockerClient, res: ExpressResponse, action: Action, params: map<string, string>, body: map<string, JsValue>)
    requires res.statusCode == 200 && res.sent == None
    modifies client, res
    ensures var run := HandleRun(client.daemon, old(client.trace), action, params, body);
            client.trace == old(client.trace) + run.issued
            && res.statusCode == Respond(run.result).status
            && res.sent == Some(Respond(run.result).body)
  {
    var result: Result<JsValue>;
    if action == CreateAndStartContainer {
      result := client.CreateContainer(Field(body, "name"), Field(body, "repoTag"));
    } else {
      var c := RouteCall(action, params, body);
      var data := client.MakeDockerRequest(c.apiPath, c.options);
      result := if action == ListImageTags then Bind(data, RepoTagList) else data;
    }
    match result {
      case Ok(value) =>
        res.Json(value);
      case Err(error) =>
        res.Status(ErrorStatus(error));
        res.Json(Obj(map["error" := Str(error.message)]));
    }
  }
}
