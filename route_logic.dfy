/** The decision logic of the REST integration `WP_Webhooks_Route`: the
    permission gate, the ping and list responses, and the route table that
    `register_routes` installs. WordPress filters are function parameters;
    the identity function is "no filter registered". */
module RouteLogic {
  import opened Values

  /** A `WP_REST_Request`, reduced to its parameters. */
  datatype Request = Request(params: map<string, Value>)

  /** `$request->get_param( $name )`: null when the parameter is absent. */
  function GetParam(request: Request, name: string): Value
  {
    if name in request.params then request.params[name] else Null
  }

  // ---------------------------------------------------------------------
  // Permission gate

  /** The `webhook_ping_permission_check` filter: default value and request. */
  type PermissionFilter = (Value, Request) -> Value

  /** `webhook_permission_check`: the filtered verdict when it is a boolean,
      and `false` for any other value. */
  function WebhookPermissionCheck(filter: PermissionFilter, request: Request): (ok: bool)
    ensures filter(Bool(true), request).Bool? ==> ok == filter(Bool(true), request).b
    ensures !filter(Bool(true), request).Bool? ==> !ok
  {
    var permissible := filter(Bool(true), request);
    if permissible.Bool? then permissible.b else false
  }

  /** With no filter registered the ping routes are open. */
  lemma PermissionOpenByDefault(request: Request)
    ensures WebhookPermissionCheck((v, q) => v, request)
  {
  }

  /** Fail closed: access is granted exactly when the filter yields the
      boolean `true`; `"yes"`, `1` or `null` deny. */
  lemma PermissionFailsClosed(filter: PermissionFilter, request: Request)
    ensures WebhookPermissionCheck(filter, request) <==> filter(Bool(true), request) == Bool(true)
  {
  }

  // ---------------------------------------------------------------------
  // Ping and list responses

  const PingNotAllowedMessage := "Error Method Not Allowed: No handler configured to accept pings from this source."

  /** The 405 response `ping` offers to its filter. */
  function DefaultPingResponse(): Response
  {
    Response(Dict(map["success" := Bool(false), "message" := Str(PingNotAllowedMessage)]), 405)
  }

  /** What a `webhook_ping` filter may return: a response object or plain data. */
  datatype Reply = Responded(response: Response) | Data(value: Value)

  /** `rest_ensure_response`: a response passes through, plain data is
      wrapped with status 200. */
  function EnsureResponse(x: Reply): Response
  {
    match x
    case Responded(r) => r
    case Data(v) => Response(v, 200)
  }

  /** The `webhook_ping` filter: default response, `source` parameter, request. */
  type PingFilter = (Reply, Value, Request) -> Reply

  /** `ping`: whatever the filter substitutes for the default 405 response,
      normalised to a response. */
  function Ping(filter: PingFilter, request: Request): (r: Response)
    ensures var x := filter(Responded(DefaultPingResponse()), GetParam(request, "source"), request);
      && (x.Responded? ==> r == x.response)
      && (x.Data? ==> r.status == 200 && r.data == x.value)
  {
    EnsureResponse(filter(Responded(DefaultPingResponse()), GetParam(request, "source"), request))
  }

  /** With no handler configured, a ping is refused with 405 and the fixed message. */
  lemma PingWithoutHandler(request: Request)
    ensures Ping((x, source, q) => x, request).status == 405
    ensures Ping((x, source, q) => x, request).data ==
      Dict(map["success" := Bool(false), "message" := Str("Error Method Not Allowed: No handler configured to accept pings from this source.")])
  {
  }

  /** The response of the read-only `/ping` route. */
  function PingStatusResponse(): Response
  {
    Response(Dict(map["message" := Str("listening")]), 200)
  }

  /** `list`: status 200 with the listing table as its data; the data reads
      back as exactly that table. */
  function ListResponse(table: map<string, seq<string>>): (r: Response)
    ensures r.status == 200
    ensures TableOf(r.data) == Some(table)
  {
    TableRoundTrip(table);
    Response(TableValue(table), 200)
  }

  // ---------------------------------------------------------------------
  // Route table

  datatype Verb = GET | POST | PUT | PATCH | DELETE

  /** `WP_REST_Server::READABLE`. */
  const Readable: set<Verb> := {GET}

  /** `WP_REST_Server::ALLMETHODS`. */
  const AllMethods: set<Verb> := {GET, POST, PUT, PATCH, DELETE}

  datatype Handler = ListHandler | PingStatusHandler | PingHandler

  /** A route's `permission_callback`. */
  datatype Gate = ReturnTrue | PermissionCheck

  datatype RouteDef = RouteDef(namespace: string, path: string, methods: set<Verb>, handler: Handler, gate: Gate)

  /** `'webhooks/v' . $version` with `$version = 1`. */
  const DefaultNamespace := "webhooks/v" + "1"
  const DefaultRestBase := "list"
  const PingPath := "/ping"
  const PingSourcePath := "/ping/(?P<source>\\w+)"

  /** The three routes `register_routes` installs, in order. */
  function RouteTable(namespace: string, restBase: string): seq<RouteDef>
  {
    [ RouteDef(namespace, "/" + restBase, Readable, ListHandler, ReturnTrue),
      RouteDef(namespace, PingPath, Readable, PingStatusHandler, PermissionCheck),
      RouteDef(namespace, PingSourcePath, AllMethods, PingHandler, PermissionCheck) ]
  }

  /** Whether a route's permission callback lets the request through. */
  function Permits(gate: Gate, filter: PermissionFilter, request: Request): bool
  {
    match gate
    case ReturnTrue => true
    case PermissionCheck => WebhookPermissionCheck(filter, request)
  }

  /** Only the list route is open; both ping routes pass exactly when the
      permission check does; only the source route accepts writes. */
  lemma {:induction false} RouteGates(namespace: string, restBase: string, filter: PermissionFilter, request: Request)
    ensures |RouteTable(namespace, restBase)| == 3
    ensures forall r :: r in RouteTable(namespace, restBase) ==> r.namespace == namespace
    ensures forall r :: r in RouteTable(namespace, restBase) && r.handler == ListHandler ==>
      Permits(r.gate, filter, request)
    ensures forall r :: r in RouteTable(namespace, restBase) && r.handler != ListHandler ==>
      (Permits(r.gate, filter, request) <==> filter(Bool(true), request) == Bool(true))
    ensures forall r :: r in RouteTable(namespace, restBase) ==> (r.methods == AllMethods <==> r.handler == PingHandler)
  {
    var t := RouteTable(namespace, restBase);
    assert forall r :: r in t ==> r == t[0] || r == t[1] || r == t[2];
    PermissionFailsClosed(filter, request);
    assert GET in Readable && POST !in Readable && POST in AllMethods;
  }

  /** The response of a route's callback: `list` answers with the listing
      table it reads, the `/ping` closure with `{message: listening}`, and
      `ping` with whatever its filter substitutes. */
  function Respond(handler: Handler, table: map<string, seq<string>>, pingFilter: PingFilter, request: Request): (r: Response)
    ensures handler == ListHandler ==> r.status == 200 && TableOf(r.data) == Some(table)
    ensures handler == PingStatusHandler ==> r.status == 200 && r.data == Dict(map["message" := Str("listening")])
    ensures handler == PingHandler ==> r == Ping(pingFilter, request)
  {
    match handler
    case ListHandler => ListResponse(table)
    case PingStatusHandler => PingStatusResponse()
    case PingHandler => Ping(pingFilter, request)
  }

  /** What each registered route answers: the read-only `/ping` route says
      `listening` with 200, the list route returns the table with 200, and
      the source route returns the filtered ping, 405 when no handler is
      configured. */
  lemma {:induction false} RouteResponses(namespace: string, restBase: string, table: map<string, seq<string>>, request: Request)
    ensures var t := RouteTable(namespace, restBase);
      && t[0].path == "/" + restBase && Respond(t[0].handler, table, (x, source, q) => x, request).status == 200
      && TableOf(Respond(t[0].handler, table, (x, source, q) => x, request).data) == Some(table)
      && t[1].path == "/ping" && t[1].methods == {GET}
      && Respond(t[1].handler, table, (x, source, q) => x, request) == Response(Dict(map["message" := Str("listening")]), 200)
      && Respond(t[2].handler, table, (x, source, q) => x, request).status == 405
  {
    PingWithoutHandler(request);
  }

  // ---------------------------------------------------------------------
  // The `source` path parameter

  /** A character of PCRE's `\w`. */
  predicate IsWordChar(c: char)
  {
    ('a' <= c <= 'z') || ('A' <= c <= 'Z') || ('0' <= c <= '9') || c == '_'
  }

  /** A match of `\w+`. */
  predicate IsWord(s: string)
  {
    |s| > 0 && forall i :: 0 <= i < |s| ==> IsWordChar(s[i])
  }

  /** The `source` captured from a path under the namespace, when the path
      matches `/ping/(?P<source>\w+)`. */
  function PingSource(path: string): (r: Option<string>)
    ensures r.Some? ==> path == "/ping/" + r.value && IsWord(r.value)
  {
    if |path| > 6 && path[..6] == "/ping/" && IsWord(path[6..]) then Some(path[6..]) else None
  }

  /** `/ping/<s>` routes with source `s` exactly when `s` is a word. */
  lemma PingSourceMatches(s: string)
    ensures PingSource("/ping/" + s) == (if IsWord(s) then Some(s) else None)
  {
    var p := "/ping/" + s;
    assert p[..6] == "/ping/" && p[6..] == s;
  }
}
