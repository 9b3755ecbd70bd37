# fortainer-backend in Dafny

A model of the fortainer backend. The backend is a Node service that exposes the Docker Engine
API over TCP behind a shared API key. It consists of three pieces:

- `src/app.js` is an authenticated reverse proxy. Under `/docker-api`, a request must carry the
  stored key in `x-api-key`. The proxy then strips the mount prefix and hands the request to
  the Docker socket with its method and headers. The upstream answer, or a connection error,
  becomes the response.
- `src/api/services/dockerService.js` holds the service functions. Each issues one or more
  axios requests to the daemon through `makeDockerRequest`. The list functions project the
  daemon's JSON into small summary records.
- `src/api/routes/route.js` is an Express application of eleven routes. `POST /containers`
  runs the guarded three-request sequence of `createContainer` and answers with the create
  response. `GET /images/list` issues one image query and answers with the flattened
  `RepoTags` of its answer. Each of the other nine routes issues exactly its one Docker
  request and answers with that request's data. On failure a route answers with
  `error.response?.status || 500` and `{ error: message }`.

`makeDockerRequest` appears three times, identically: in `dockerService.js`, in `route.js` and
in `src/api/controllers/controller.js`. The model defines it once, as
`DockerRequest.RequestConfig` and `DockerService.DockerClient.MakeDockerRequest`, and the route
handlers use that one definition.

Modules, one per file:

- `JsValues` (`js_values.dfy`) covers the JavaScript values the code handles: JSON-shaped values
  plus `undefined`. It also covers the operations the code applies to them: truthiness, property
  reads that throw a TypeError on `null`/`undefined`, index reads, `String()` as template
  literals use it (for values without an own `toString` key), and ASCII `toLowerCase`. A thrown error is a `Failure(message,
  responseStatus)`, and code that may throw returns a `Result`.
- `DockerRequest` (`docker_request.dfy`) covers the axios configuration: defaults merged with
  the caller's options, then `url` forced to `http:` + path. The Docker daemon is an oracle
  `Daemon = (seq<Call>, Call) -> Result<AxiosResponse>`. It receives every call issued so far
  and the one issued now. What goes over the socket is `Call.AxiosConfig()`, a function of the call,
  so an oracle over calls covers every daemon.
- `DockerService` (`docker_service.dfy`) covers the projections, the request each service
  function issues, and a pure specification `CreateContainerRun` of the guarded three-request
  sequence.
  - Class `DockerClient` holds the daemon and a `trace` of every call issued. Each service
    function is a method on it.
  - Every method states the calls it appends to the trace and its result.
- `Routes` (`routes.dfy`) covers the route table in registration order and Express first-match
  dispatch over it.
  - `RouteCall` gives the Docker request of each route.
  - `RepoTagList` models the `/images/list` flattening. `ErrorStatus` and `Respond` model the
    error rule.
  - Method `Handle` runs one handler against a `DockerClient` and an `ExpressResponse`.
- `Gateway` (`gateway.dfy`) covers `app.js`: socket and port defaults, `authenticate`, the mount
  match, the prefix strip, the (unused) trailing-slash trim and the forwarded options.
  - The pure function `Serve` gives the whole exchange.
  - Class `ServerResponse` and method `HandleRequest` replay it step by step on a mutable
    response.

Where the code and the design intent of the project differ, the model follows the code:

- The key comparison is plain string equality.
- The forwarded path is the stripped `originalUrl` without the trailing-slash trim. The
  trimmed `dockerPath` is computed and never used.
- For a bare `/docker-api` the forwarded options carry the empty path, not `/`.
- The client's `x-api-key` header is forwarded to the daemon with the other headers.
- Express admits the mount path in any letter case, but the regular expression strips only
  the exact spelling. So `/Docker-API/...` is forwarded with its prefix.
- On `win32` the default socket is the string the source literal evaluates to,
  `/\./pipe/docker_engine`.

## Model

| member | source | states |
|---|---|---|
| JsValues.Member | src/api/services/dockerService.js:56 | a property read throws exactly on `null`/`undefined`; on an object it is the own field or `undefined` |
| JsValues.ElementAt | src/api/services/dockerService.js:37 | `v[0]` throws exactly on `null`/`undefined`; on an array it is the element, or `undefined` past the end |
| JsValues.Truthy | src/app.js:38 | definition: `undefined`, `null`, `false`, `0` and `""` are falsy, everything else truthy |
| JsValues.ToStr | src/api/services/dockerService.js:52 | definition of `String(v)` as a template literal inserts it: arrays joined with commas, `null`/`undefined` elements empty, objects `[object Object]` |
| JsValues.LowerAscii | src/app.js:53 | `toLowerCase` keeps the length and lower-cases each character |
| DockerRequest.MergeOptions | src/api/controllers/controller.js:11-16 | the merged options have the keys of both objects; the caller's values win and keys the caller lacks keep their default |
| DockerRequest.RequestConfig | src/api/services/dockerService.js:9-20 | the axios config has the default and caller keys plus `url`; `url` is `http:` + path; `socketPath` and `method` default to the Unix socket and `get`; every other caller key is kept |
| DockerRequest.CallerUrlIgnored | src/api/controllers/controller.js:17 | a `url` supplied by the caller never changes the configuration |
| DockerRequest.ExplicitGetIsDefault | src/api/services/dockerService.js:52-54 | passing `{ method: 'get' }` configures the same request as passing nothing |
| DockerRequest.DataOf | src/api/controllers/controller.js:19-23 | the result is the response's `data`, and a rejection is re-raised unchanged |
| DockerService.MapResult | src/api/services/dockerService.js:35-39 | `.map` with a callback that may throw succeeds iff every call succeeds, then has one result per element in order; otherwise it fails with the error of the first throwing element |
| DockerService.JsMap | src/api/services/dockerService.js:35 | definition of `v.map(f)` on daemon data: `MapResult` on an array, a TypeError on anything else |
| DockerService.SummarizeContainer | src/api/services/dockerService.js:35-39 | a container record projects to `{Id, Names[0], State}`; it fails iff the record is not an object or its `Names` is `null`/missing |
| DockerService.SummarizeImage | src/api/services/dockerService.js:92-96 | an image record projects to `{Id, RepoTags[0], Size}`; it fails iff the record is not an object or `RepoTags` is `null`/missing |
| DockerService.SummarizeNetwork | src/api/services/dockerService.js:131-135 | a network record projects to `{Id, Name, Driver}`; it fails iff the record is `null`/`undefined` |
| DockerService.ProjectContainers | src/api/services/dockerService.js:33-39 | succeeds iff the data is an array of projectable records; then one summary per container, same length and order |
| DockerService.ProjectImages | src/api/services/dockerService.js:90-96 | succeeds iff the data is an array of projectable records; then one summary per image, same length and order |
| DockerService.ProjectNetworks | src/api/services/dockerService.js:129-135 | succeeds iff the data is an array with no `null`/`undefined` entry; then one summary per network, same length and order |
| DockerService.ContainerNamesAreFirstNames | src/api/services/dockerService.js:35-39 | containers whose `Names` are non-empty arrays project to their `Id`, first name and `State` |
| DockerService.ListContainersCall | src/api/services/dockerService.js:33 | definition: `makeDockerRequest('/containers/json')` |
| DockerService.LookupImageCall | src/api/services/dockerService.js:52-54 | definition: `/images/${repoTag}/json` with `method: 'get'` |
| DockerService.CreateContainerCall | src/api/services/dockerService.js:58-64 | definition: `/containers/create` with `method: 'post'` and `data: { name, Image }` |
| DockerService.StartContainerCall | src/api/services/dockerService.js:66-68 | definition: `/containers/${id}/start` with `method: 'post'` |
| DockerService.RemoveContainerCall | src/api/services/dockerService.js:78-80 | definition: `/containers/${id}` with `method: 'delete'` |
| DockerService.ListImagesCall | src/api/services/dockerService.js:90 | definition: `makeDockerRequest('/images/json')` |
| DockerService.PullImageCall | src/api/services/dockerService.js:105-107 | definition: `/images/create?fromImage=${imageName}` with `method: 'post'` |
| DockerService.RemoveImageCall | src/api/services/dockerService.js:117-119 | definition: `/images/${id}` with `method: 'delete'` |
| DockerService.ListNetworksCall | src/api/services/dockerService.js:129 | definition: `makeDockerRequest('/networks')` |
| DockerService.CreateNetworkCall | src/api/services/dockerService.js:144-149 | definition: `/networks/create` with `method: 'post'` and `data: { Name: name }` |
| DockerService.RemoveNetworkCall | src/api/services/dockerService.js:159-161 | definition: `/networks/${id}` with `method: 'delete'` |
| DockerService.IdOf | src/api/services/dockerService.js:56 | definition: `response.Id` after an awaited response |
| DockerService.ListRequestsConfigured | src/api/services/dockerService.js:33-129 | the three list queries GET `/containers/json`, `/images/json` and `/networks` on the default socket |
| DockerService.CreateContainerRequestsConfigured | src/api/services/dockerService.js:52-68 | the lookup GETs `/images/{repoTag}/json`; the create POSTs `/containers/create` with `{name, Image}`; the start POSTs `/containers/{id}/start` |
| DockerService.RemoveRequestsConfigured | src/api/services/dockerService.js:76-167 | the three removals DELETE `/containers/{id}`, `/images/{id}` and `/networks/{id}` |
| DockerService.PullAndCreateNetworkConfigured | src/api/services/dockerService.js:103-155 | the pull POSTs `/images/create?fromImage={imageName}` without data; the network creation POSTs `/networks/create` with `{Name}` |
| DockerService.CreateContainerRun | src/api/services/dockerService.js:46-74 | `createContainer` issues at most three requests |
| DockerService.CreateContainerGuard | src/api/services/dockerService.js:48-50 | a falsy `repoTag` fails with the guard's message and issues nothing; a truthy one issues the image lookup first |
| DockerService.CreateAfterLookup | src/api/services/dockerService.js:52-64 | the create is issued only after a lookup that yielded an image, and carries that image's `Id` |
| DockerService.StartAfterCreate | src/api/services/dockerService.js:58-68 | the start is issued only after a create that yielded a container, and names that container's `Id` |
| DockerService.CreateContainerReturnsCreateResponse | src/api/services/dockerService.js:66-70 | on success all three requests were answered and the result is the create response, not the start response |
| DockerService.CreateContainerSucceeds | src/api/services/dockerService.js:52-70 | when the lookup yields an image, the create yields a container and the start is answered, exactly those three calls are issued and the result is the create response |
| DockerService.CreateContainerSucceedsIff | src/api/services/dockerService.js:46-74 | the run succeeds iff the tag is truthy, both `Id` reads succeed and the start is answered |
| DockerService.EarlyFailuresReRaised | src/api/services/dockerService.js:56-71 | a run stopping after the lookup, or after the create, fails with that step's error unchanged |
| DockerService.StartFailureReRaised | src/api/services/dockerService.js:66-73 | a failure after the start was issued is the start's own error, unchanged |
| DockerService.DockerClient.MakeDockerRequest | src/api/routes/route.js:9-31 | one call is appended to the trace; the result is the daemon's data or its error |
| DockerService.DockerClient.GetContainers | src/api/services/dockerService.js:31-44 | issues the container list query and then projects its data |
| DockerService.DockerClient.CreateContainer | src/api/services/dockerService.js:46-74 | the trace grows by exactly the calls of `CreateContainerRun`, and the result is its result |
| DockerService.DockerClient.RemoveContainer | src/api/services/dockerService.js:76-86 | issues the container DELETE and returns the daemon's data |
| DockerService.DockerClient.GetImages | src/api/services/dockerService.js:88-101 | issues the image list query and then projects its data |
| DockerService.DockerClient.PullImage | src/api/services/dockerService.js:103-113 | issues the pull POST and returns the daemon's data |
| DockerService.DockerClient.RemoveImage | src/api/services/dockerService.js:115-125 | issues the image DELETE and returns the daemon's data |
| DockerService.DockerClient.GetNetworks | src/api/services/dockerService.js:127-140 | issues the network list query and then projects its data |
| DockerService.DockerClient.CreateNetwork | src/api/services/dockerService.js:142-155 | issues the network creation POST and returns the daemon's data |
| DockerService.DockerClient.RemoveNetwork | src/api/services/dockerService.js:157-167 | issues the network DELETE and returns the daemon's data |
| Routes.RouteTable | src/api/routes/route.js:36-211 | definition: the eleven routes with verb, path pattern and handler, in registration order |
| Routes.MatchPath | src/api/routes/route.js:3 | definition: a pattern matches the path, or the path without one trailing empty segment (non-strict routing) |
| Routes.MatchRoute | src/api/routes/route.js:36 | definition: the verb matches (GET also answers HEAD) and the path matches |
| Routes.Dispatch | src/api/routes/route.js:36-211 | definition: the first route of the table that matches |
| Routes.MatchSegments | src/api/routes/route.js:84-86 | a pattern matches iff it has as many segments as the path and each matches (literals ignore case, parameters need a non-empty segment); only pattern parameters are bound |
| Routes.MatchSegmentsBinds | src/api/routes/route.js:86 | each parameter is bound to the path segment at its last occurrence in the pattern |
| Routes.FirstMatch | src/api/routes/route.js:36-211 | the selected route matches, carries its action and parameters, and no earlier route matches; nothing is selected iff no route matches |
| Routes.DispatchIsFirstMatch | src/api/routes/route.js:36-211 | dispatch selects route `i` iff route `i` matches and no earlier route does |
| Routes.RouteMisses | src/api/routes/route.js:36-211 | a route misses a request of another verb, a path with too many segments, or a first segment whose length differs from its literal's |
| Routes.DispatchesTo | src/api/routes/route.js:36-211 | a route that matches with no earlier match is where dispatch goes, with those parameters |
| Routes.MatchIgnoresTrailingSlash | src/api/routes/route.js:3 | one trailing `/` does not change whether or how a route matches |
| Routes.FirstMatchIgnoresTrailingSlash | src/api/routes/route.js:3 | one trailing `/` does not change first-match selection over any table without empty literals |
| Routes.TrailingSlashIgnored | src/api/routes/route.js:3 | the application dispatches `p/` as `p` |
| Routes.ContainerListDispatch | src/api/routes/route.js:36 | `GET /containers` reaches the list route |
| Routes.ContainerCreateDispatch | src/api/routes/route.js:47 | `POST /containers` reaches the create-and-start route |
| Routes.ContainerRemoveDispatch | src/api/routes/route.js:84 | `DELETE /containers/{id}` reaches the removal and binds `id` |
| Routes.ImageListDispatch | src/api/routes/route.js:102 | `GET /images` reaches the image list |
| Routes.ImagePullDispatch | src/api/routes/route.js:112 | `POST /images` reaches the pull route |
| Routes.ImageRemoveDispatch | src/api/routes/route.js:128 | `DELETE /images/{id}` reaches the removal and binds `id` |
| Routes.ImageListShadowsImageId | src/api/routes/route.js:145-163 | `GET /images/x` reaches the tag list when `x` spells `list` in any case, and otherwise the image inspection with `id = x` |
| Routes.RegistrationOrderDecides | src/api/routes/route.js:145-163 | with the two image routes registered the other way round, `list` would be taken as an image id |
| Routes.NetworkListDispatch | src/api/routes/route.js:182 | `GET /networks` reaches the network list |
| Routes.NetworkCreateDispatch | src/api/routes/route.js:192 | `POST /networks` reaches the network creation |
| Routes.NetworkRemoveDispatch | src/api/routes/route.js:211 | `DELETE /networks/{id}` reaches the removal and binds `id` |
| Routes.Spread | src/api/routes/route.js:153 | definition: what `flat` makes of one element: an array's items, anything else itself |
| Routes.Flat | src/api/routes/route.js:153 | definition of `xs.flat()`: the elements' spreads concatenated in order |
| Routes.FlatAppend | src/api/routes/route.js:153 | `flat` distributes over concatenation, so tags stay grouped in image order |
| Routes.FlatMembers | src/api/routes/route.js:153 | a value is in the flattened list iff it is a tag of some image, or a non-array entry itself |
| Routes.FlatKeepsUndefined | src/api/routes/route.js:153 | an image without `RepoTags` contributes one `undefined`, which `flat` keeps |
| Routes.RepoTagList | src/api/routes/route.js:153 | succeeds iff the response is an array with no `null`/`undefined` image; the result is the one-level concatenation of the images' `RepoTags` |
| Routes.ListImageTagsCall | src/api/routes/route.js:148-150 | definition: `/images/json?all=0` with `method: 'get'` |
| Routes.RouteCall | src/api/routes/route.js:38-216 | definition: the one Docker request each route other than `POST /containers` issues |
| Routes.HandleRun | src/api/routes/route.js:36-225 | definition of each handler body: the calls it issues and the result it then responds with |
| Routes.RouteDockerRequests | src/api/routes/route.js:38-216 | each route's Docker path, method and data; the `:id` parameter and body fields are interpolated as they are |
| Routes.ErrorStatus | src/api/routes/route.js:42 | the status is the upstream one when present and non-zero, otherwise (absent or 0) 500; never 0 |
| Routes.Respond | src/api/routes/route.js:39-42 | success answers 200 with the value; failure answers `ErrorStatus` with `{ error: message }` |
| Routes.SingleRequestRoutes | src/api/routes/route.js:36-225 | every route but `POST /containers` issues exactly its one request; only `/images/list` transforms the answer |
| Routes.ImageTagsRoute | src/api/routes/route.js:145-160 | `/images/list` GETs `/images/json?all=0` once, and succeeds iff the query and the flattening do |
| Routes.CreateRouteWithoutRepoTag | src/api/routes/route.js:49-80 | without a truthy `repoTag`, nothing is issued and the answer is 500 with the guard's message |
| Routes.CreateRouteRespondsWithCreateResponse | src/api/routes/route.js:57-77 | a successful run has issued all three requests, starting with the image lookup, and answers 200 with the create response |
| Routes.CreateRouteSucceeds | src/api/routes/route.js:57-77 | when the lookup yields an image, the create yields a container and the start is answered, exactly those three calls are issued and the answer is 200 with the create response |
| Routes.ErrorResponses | src/api/routes/route.js:78-79 | every failed handler answers `{ error: message }` with the upstream status, or 500 when there is none or it is 0 |
| Routes.ExpressResponse.Status | src/api/routes/route.js:42 | sets the status only |
| Routes.ExpressResponse.Json | src/api/routes/route.js:39 | records the sent value and keeps the status |
| Routes.Handle | src/api/routes/route.js:36-225 | the client's trace grows by the calls of `HandleRun`, and the response ends with the status and body `Respond` gives for its result |
| Gateway.DefaultDockerSocket | src/app.js:21-23 | the named pipe on `win32`, the Unix socket elsewhere |
| Gateway.DockerSocket | src/app.js:15 | `DOCKER_SOCKET` when set and non-empty, else the platform default; never empty |
| Gateway.Port | src/app.js:16 | `PORT` when set and non-empty, else 3000 |
| Gateway.Authenticate | src/app.js:35-43 | passes iff the header is present, non-empty and equal to the stored key; otherwise rejects with 401 `Unauthorized` |
| Gateway.WrongKeyLikeMissingKey | src/app.js:38-39 | a wrong key is answered exactly like a missing one |
| Gateway.EmptyStoredKeyRejectsAll | src/app.js:38 | an empty stored key rejects every request |
| Gateway.PathnameOf | src/app.js:46 | the pathname is the longest prefix of the URL before any `?` or `#` |
| Gateway.StripMountPrefix | src/app.js:47 | a URL starting with `/docker-api` is that prefix plus the result; any other URL is unchanged |
| Gateway.StripUndoesPrefix | src/app.js:52 | stripping undoes prepending the prefix, query string included |
| Gateway.StripExamples | src/app.js:47 | only the first prefix is removed (not idempotent), and a bare mount path becomes empty |
| Gateway.CaseVariantPrefixForwarded | src/app.js:46-52 | `/Docker-API/info` is admitted by the mount but keeps its prefix |
| Gateway.TrimTrailingSlash | src/app.js:48 | exactly one final `/` is dropped; anything else is unchanged |
| Gateway.TrimExamples | src/app.js:48 | `/` becomes empty, `//` becomes `/` |
| Gateway.ForwardOptions | src/app.js:50-55 | the configured socket, the stripped URL, the lower-cased method, the headers unchanged |
| Gateway.ForwardedPathNotTrimmed | src/app.js:47-52 | a trailing slash reaches the daemon although the unused trimmed path lacks it |
| Gateway.ApiKeyForwardedUpstream | src/app.js:54 | an accepted request sends its API key on to the daemon |
| Gateway.RejectedNeverForwarded | src/app.js:38-39 | a request under the mount without the right key is answered 401 and never reaches the socket |
| Gateway.AcceptedForwarded | src/app.js:57-66 | an accepted request is forwarded once with the forward options; the answer is the upstream status and headers, or 500 and the connection message |
| Gateway.OutsideMountNotForwarded | src/app.js:46 | every request whose pathname the mount does not match is left to Express, whatever its headers |
| Gateway.MountIsWholeSegment | src/app.js:46 | the mount is a whole path segment: `/docker-apix` and `/docker-api-v2/x` are outside it, `/docker-api` and `/docker-api/x` inside |
| Gateway.MountMatches | src/app.js:46 | definition: the pathname starts with `/docker-api` in any letter case, followed by `/` or nothing |
| Gateway.Serve | src/app.js:35-66 | definition of one whole exchange: mount match, then `authenticate`, then the forward and the upstream answer or the connection error |
| Gateway.ServerResponse.Send | src/app.js:39 | sets the status and the text body and finishes the response |
| Gateway.ServerResponse.WriteHead | src/app.js:58 | sets the status and adds the upstream headers |
| Gateway.ServerResponse.PipeUpstreamBody | src/app.js:59 | the body is the piped upstream body and the response is finished |
| Gateway.ServerResponse.End | src/app.js:65 | sets the text body and finishes the response, keeping status and headers |
| Gateway.HandleRequest | src/app.js:35-66 | the forwarded options and the final status, headers and body are those `Serve` gives |

## Left out

- Stream piping: `req.pipe`, `clientResponse.pipe` and the `http.request` plumbing are I/O.
  The upstream body is the token `Piped`, and the request body is not modelled.
- Gateway.ForwardOptions: the model stops at the options object. Node's `http.request`
  sends `/` when `options.path` is empty, so the daemon receives `/` for a bare
  `/docker-api`; that substitution is part of the `http.request` plumbing left out.
- Gateway.PathnameOf: only the fast path of Express's URL parsing is modelled: a URL that
  starts with `/` and contains no `#` and no whitespace, split at the first `?`. Express
  parses every other request target with Node's legacy `url.parse`, and the model does not
  cover those cases:
  - A URL containing `#`, anywhere, takes the `url.parse` path. That parser turns every `\`
    before the first `?` or `#` into `/` (and percent-escapes characters such as a later `\`,
    space or `{`). So `GET /docker-api\containers\json#x` has the pathname
    `/docker-api/containers/json`: the source mounts it, runs `authenticate`, and with the
    stored key forwards it with the path `\containers\json#x`. The model keeps the `\`
    in the pathname, cut at the `#`, so the mount does not match and `Serve` answers
    `Unhandled` whatever the key.
  - A URL containing whitespace takes the same `url.parse` path, which also trims leading and
    trailing whitespace; it is not modelled either.
  - An absolute-form target such as `http://h/docker-api/x` is mounted, authenticated and
    forwarded with the whole URL as its path (the strip at `src/app.js:52` does not apply).
    The model treats it as outside the mount.
- Axios and the socket transport are left out: the Docker daemon is an oracle over calls.
  Concurrency between requests, timeouts and cancellation are not modelled: each handler runs
  to completion after a given history of calls.
- `app.listen`, `http.createServer`, `console` logging and `process.exit` are lifecycle and
  logging.
- Reading and trimming `api-key.txt`: the stored key is an input.
- `src/generateApiKey.js` is not part of this model: it is random bytes and a file write.
- The test files are not part of this model.
- Constant-time key comparison is left out because the code does not do it; it compares with
  `!==`.
- Express and body-parser internals, except first-match routing, non-strict trailing slashes,
  case-insensitive paths and HEAD served by GET routes:
  - Request paths are given already split into segments.
  - Parameters are not URI-decoded.
  - The 404 fallback, and the headers `res.send`/`res.json` add, are not modelled.
  - `req.body` is a map of JSON fields; a non-object body is treated as an empty one.
- Routes.Respond: the body is the `JsValue` passed to `res.json`. JSON serialisation, where an
  `undefined` array element becomes `null`, is not modelled.
- JsValues.ToStr: an object with an own `toString` key (for example `{"toString": 1}`),
  alone or inside an array, makes JavaScript's string conversion throw "Cannot convert object
  to primitive value". The model gives `[object Object]` instead. A request body such as
  `{"imageName": {"toString": 1}}` therefore fails before any Docker request in the source,
  while the model issues the request with `[object Object]` interpolated.
- JsValues.Member: prototype properties such as `length` are not modelled. Reads on
  non-objects other than `null`/`undefined` give `undefined`.
- JsValues.LowerAscii: only ASCII letters are lower-cased; Unicode case mapping is not
  modelled.
- JsValues.ElementAt: on a string, JavaScript indexes UTF-16 code units while the model
  indexes characters; the two differ on characters outside the Basic Multilingual Plane.
- Numbers are integers; floating point is not modelled. TypeError messages follow V8's
  wording and are not guaranteed to match other engines.
- Headers are a map from lower-case name to one value; repeated headers are not modelled.
- DockerService.CreateContainerRun: its own contract only bounds the number of requests.
  The lemmas beside it state the rest:
  - what it issues, and in what order;
  - when it succeeds (`CreateContainerSucceedsIff`);
  - which error each failure carries.
