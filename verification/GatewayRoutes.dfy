/** The route table of the API gateway: first-match dispatch, the auth stage, the breaker gate. */
module GatewayRoutes {
  import opened Common
  import opened CircuitBreaker

  /** A path as its lower-case segments, so that a mount path matches as a segment prefix. */
  type Path = seq<string>

  datatype Route = Route(path: Path, service: string, public: bool, rateLimiter: string, methods: seq<string>)

  /** `tokenValid`: the Authorization header carries a Bearer token that verifies. */
  datatype Req = Req(verb: string, path: Path, tokenValid: bool)

  // ---------------------------------------------------------------- dispatch

  predicate Under(prefix: Path, path: Path) {
    prefix <= path
  }

  predicate ProperlyUnder(prefix: Path, path: Path) {
    prefix < path
  }

  /** The index of the first mounted router whose path matches, |table| if none does. */
  function FirstMatch(table: seq<Route>, path: Path): (i: nat)
    ensures i <= |table|
    ensures i < |table| ==> Under(table[i].path, path)
    ensures forall k :: 0 <= k < i ==> !Under(table[k].path, path)
  {
    if table == [] || Under(table[0].path, path) then 0 else 1 + FirstMatch(table[1..], path)
  }

  /** Reference: among the matches, one of greatest length, the earliest of them. */
  predicate IsLongestMatch(table: seq<Route>, path: Path, i: nat) {
    && i < |table| && Under(table[i].path, path)
    && (forall k :: 0 <= k < |table| && Under(table[k].path, path) ==> |table[k].path| <= |table[i].path|)
    && (forall k :: 0 <= k < i && Under(table[k].path, path) ==> |table[k].path| < |table[i].path|)
  }

  /** Every path that is mounted after a proper prefix of it is also mounted before that prefix. */
  predicate NoPrefixFirst(table: seq<Route>) {
    forall i, j :: 0 <= i < j < |table| && ProperlyUnder(table[i].path, table[j].path) ==>
      exists k :: 0 <= k < i && table[k].path == table[j].path
  }

  lemma PrefixesOfOne(a: Path, b: Path, path: Path)
    requires Under(a, path) && Under(b, path)
    ensures |a| < |b| ==> ProperlyUnder(a, b)
    ensures |a| == |b| ==> a == b
  {
    assert a == path[..|a|] && b == path[..|b|];
  }

  predicate MatchesLongest(table: seq<Route>, path: Path) {
    var f := FirstMatch(table, path);
    f < |table| ==> IsLongestMatch(table, path, f)
  }

  lemma OrderedMatchesLongest(table: seq<Route>, path: Path)
    requires NoPrefixFirst(table)
    ensures MatchesLongest(table, path)
  {
    var f := FirstMatch(table, path);
    forall k | f < |table| && 0 <= k < |table| && Under(table[k].path, path)
      ensures |table[k].path| <= |table[f].path|
    {
      PrefixesOfOne(table[f].path, table[k].path, path);
    }
  }

  lemma LongestAtMountPath(table: seq<Route>, i: nat, j: nat)
    requires i < j < |table| && ProperlyUnder(table[i].path, table[j].path)
    requires MatchesLongest(table, table[j].path)
    ensures exists k :: 0 <= k < i && table[k].path == table[j].path
  {
    var path := table[j].path;
    var f := FirstMatch(table, path);
    assert Under(table[i].path, path) && Under(table[j].path, path);
    PrefixesOfOne(table[f].path, table[j].path, path);
  }

  /** First match is longest match on every request iff no path is mounted only after a proper prefix of it. */
  lemma FirstIsLongestIff(table: seq<Route>)
    ensures NoPrefixFirst(table) <==> forall path :: MatchesLongest(table, path)
  {
    if NoPrefixFirst(table) {
      forall path ensures MatchesLongest(table, path) { OrderedMatchesLongest(table, path); }
    }
    if forall path :: MatchesLongest(table, path) {
      forall i, j | 0 <= i < j < |table| && ProperlyUnder(table[i].path, table[j].path)
        ensures exists k :: 0 <= k < i && table[k].path == table[j].path
      {
        LongestAtMountPath(table, i, j);
      }
    }
  }

  /** A route with an earlier route at the same path or above it. */
  predicate Shadowed(table: seq<Route>, j: nat) {
    j < |table| && exists i :: 0 <= i < j && Under(table[i].path, table[j].path)
  }

  /** A route is ever dispatched to iff it is not shadowed. */
  lemma LiveIff(table: seq<Route>, j: nat)
    requires j < |table|
    ensures (exists path :: FirstMatch(table, path) == j) <==> !Shadowed(table, j)
  {
    if !Shadowed(table, j) {
      assert Under(table[j].path, table[j].path);
      assert FirstMatch(table, table[j].path) == j;
    } else {
      var i :| 0 <= i < j && Under(table[i].path, table[j].path);
      forall path | FirstMatch(table, path) == j ensures false {
        assert Under(table[i].path, path);
      }
    }
  }

  function Dispatched(table: seq<Route>, path: Path): Option<Route> {
    var i := FirstMatch(table, path);
    if i < |table| then Some(table[i]) else None
  }

  /** Deleting a shadowed route changes the dispatch of no request. */
  lemma DeleteShadowed(table: seq<Route>, j: nat, path: Path)
    requires Shadowed(table, j)
    ensures Dispatched(table[..j] + table[j + 1..], path) == Dispatched(table, path)
  {
    var less := table[..j] + table[j + 1..];
    var f, g := FirstMatch(table, path), FirstMatch(less, path);
    LiveIff(table, j);
    forall k | 0 <= k < |less| ensures less[k] == if k < j then table[k] else table[k + 1] {}
    var f' := if f < j then f else f - 1;
    assert f' < |less| ==> less[f'] == table[f];
    assert forall k :: 0 <= k < f' ==> !Under(less[k].path, path);
    assert f' <= g;
    assert f' < |less| ==> g <= f';
  }

  // ---------------------------------------------------------------- the stages of one router

  datatype Verdict = Pass | Reject(status: int)

  function AuthFilter(req: Req): Verdict {
    if req.verb == "OPTIONS" || req.tokenValid then Pass else Reject(401)
  }

  /** The auth filter of the route and then its method restriction, as the router stacks them. */
  function AuthStage(route: Route, req: Req): Verdict {
    var first := if route.public then Pass else AuthFilter(req);
    if first.Reject? then first
    else if route.methods != [] && req.verb !in route.methods then AuthFilter(req)
    else Pass
  }

  /** Without a token a request gets through exactly on a public route that lists its method or none. */
  lemma PassWithoutTokenIff(route: Route, req: Req)
    requires !req.tokenValid && req.verb != "OPTIONS"
    ensures AuthStage(route, req) == Pass <==> route.public && (route.methods == [] || req.verb in route.methods)
    ensures AuthStage(route, req) != Pass ==> AuthStage(route, req) == Reject(401)
  {}

  // ---------------------------------------------------------------- the table

  const MUTATIONS := ["POST", "PUT", "PATCH", "DELETE"]

  function Api(name: string): Path { ["api", "v1", name] }

  const ROUTES: seq<Route> := [
    Route(Api("auth"), "user", true, "auth", []),
    Route(Api("products") + ["admin"], "product", false, "sensitive", []),
    Route(Api("products"), "product", true, "global", ["GET"]),
    Route(Api("lost-found"), "lostfound", true, "global", ["GET"]),
    Route(Api("admin"), "user", false, "sensitive", []),
    Route(Api("users"), "user", false, "global", []),
    Route(Api("products"), "product", false, "sensitive", MUTATIONS),
    Route(Api("orders"), "order", false, "sensitive", []),
    Route(Api("notifications"), "notification", false, "global", []),
    Route(Api("chat"), "chat", false, "global", []),
    Route(Api("lost-found"), "lostfound", false, "sensitive", MUTATIONS),
    Route(Api("reports"), "lostfound", false, "sensitive", [])
  ]

  lemma NamesDiffer(i: nat, j: nat)
    requires i < j < 12
    ensures ROUTES[i].path[2] == ROUTES[j].path[2] <==> (i, j) in {(1, 2), (1, 6), (2, 6), (3, 10)}
    ensures |ROUTES[i].path| == if i == 1 then 4 else 3
    ensures |ROUTES[j].path| == if j == 1 then 4 else 3
    ensures ROUTES[i].path[..2] == ROUTES[j].path[..2] == ["api", "v1"]
  {
    assert |"auth"| == 4 && |"chat"| == 4 && |"admin"| == 5 && |"users"| == 5 && |"orders"| == 6;
    assert |"reports"| == 7 && |"products"| == 8 && |"lost-found"| == 10 && |"notifications"| == 13;
    assert "auth"[0] != "chat"[0] && "admin"[0] != "users"[0];
  }

  /** In this table first match is longest match, and exactly the two mutation rows are never reached. */
  lemma TableOrder()
    ensures NoPrefixFirst(ROUTES)
    ensures forall j: nat :: j < 12 ==> (Shadowed(ROUTES, j) <==> j == 6 || j == 10)
  {
    forall i, j | 0 <= i < j < 12 ensures !ProperlyUnder(ROUTES[i].path, ROUTES[j].path) {
      RowsApart(i, j);
    }
    forall j: nat | j < 12 ensures Shadowed(ROUTES, j) <==> j == 6 || j == 10 {
      ShadowedRow(j);
    }
  }

  lemma ShadowedRow(j: nat)
    requires j < 12
    ensures Shadowed(ROUTES, j) <==> j == 6 || j == 10
  {
    forall i: nat | i < j ensures Under(ROUTES[i].path, ROUTES[j].path) <==> (i, j) in {(2, 6), (3, 10)} {
      RowsApart(i, j);
    }
    var above := if j == 6 then 2 else 3;
    assert j == 6 || j == 10 ==> Under(ROUTES[above].path, ROUTES[j].path);
  }

  lemma RowsApart(i: nat, j: nat)
    requires i < j < 12
    ensures Under(ROUTES[i].path, ROUTES[j].path) <==> (i, j) in {(2, 6), (3, 10)}
    ensures !ProperlyUnder(ROUTES[i].path, ROUTES[j].path)
  {
    NamesDiffer(i, j);
    var a, b := ROUTES[i].path, ROUTES[j].path;
    assert Under(a, b) ==> a[2] == b[2];
    if a[2] == b[2] && i != 1 {
      assert a == a[..2] + [a[2]] && b == b[..2] + [b[2]];
    }
  }

  /** The public face of this table, for all paths: what gets through the auth stage without a token. */
  lemma PublicFace(req: Req)
    requires !req.tokenValid && req.verb != "OPTIONS"
    ensures var route := Dispatched(ROUTES, req.path);
            (route.Some? && AuthStage(route.value, req) == Pass) <==>
              || Under(Api("auth"), req.path)
              || (req.verb == "GET" && Under(Api("lost-found"), req.path))
              || (&& req.verb == "GET" && Under(Api("products"), req.path)
                  && !Under(Api("products") + ["admin"], req.path))
  {
    var f := FirstMatch(ROUTES, req.path);
    assert forall i :: 4 <= i < 12 ==> !ROUTES[i].public;
    if f < 12 {
      PassWithoutTokenIff(ROUTES[f], req);
    }
    if Under(Api("lost-found"), req.path) {
      ThirdSegment("lost-found", req.path);
      OnlyOneName(req.path, "lost-found", f);
    }
    if Under(Api("products"), req.path) {
      ThirdSegment("products", req.path);
      OnlyOneName(req.path, "products", f);
    }
  }

  lemma ThirdSegment(name: string, path: Path)
    ensures Under(Api(name), path) ==> |path| >= 3 && path[2] == name
  {
    assert Under(Api(name), path) ==> Api(name)[2] == path[2];
  }

  lemma OnlyOneName(path: Path, name: string, f: nat)
    requires Under(Api(name), path) && f == FirstMatch(ROUTES, path)
    requires name == "lost-found" || name == "products"
    ensures name == "lost-found" ==> f == 3
    ensures name == "products" ==> f == if Under(Api("products") + ["admin"], path) then 1 else 2
  {
    var k := if name == "lost-found" then 3 else 2;
    assert ROUTES[k].path == Api(name);
    forall i: nat | i < k && Under(ROUTES[i].path, path) ensures ROUTES[i].path[2] == name {
      NamesDiffer(i, k);
      assert ROUTES[i].path[2] == path[2] && Api(name)[2] == path[2];
    }
    forall i: nat | i < k ensures ROUTES[i].path[2] == name <==> (i, k) == (1, 2) { NamesDiffer(i, k); }
  }

  /** The row that a path is dispatched to, by its third and fourth segment. */
  function RowOf(path: Path): nat {
    if |path| < 3 || path[0] != "api" || path[1] != "v1" then 12
    else if path[2] == "auth" then 0
    else if path[2] == "products" then (if |path| > 3 && path[3] == "admin" then 1 else 2)
    else if path[2] == "lost-found" then 3
    else if path[2] == "admin" then 4
    else if path[2] == "users" then 5
    else if path[2] == "orders" then 7
    else if path[2] == "notifications" then 8
    else if path[2] == "chat" then 9
    else if path[2] == "reports" then 11
    else 12
  }

  lemma UnderApi(name: string, path: Path)
    ensures Under(Api(name), path) <==> |path| >= 3 && path[0] == "api" && path[1] == "v1" && path[2] == name
    ensures Under(Api(name) + ["admin"], path) <==> Under(Api(name), path) && |path| > 3 && path[3] == "admin"
  {
    var a, b := Api(name), Api(name) + ["admin"];
    assert |path| >= 3 ==> (a <= path <==> path[..3] == a);
    assert |path| >= 4 ==> (b <= path <==> path[..4] == b);
  }

  lemma RowAbove(i: nat, path: Path)
    requires i < 12 && Under(ROUTES[i].path, path)
    ensures RowOf(path) <= i
  {
    UnderApi(ROUTES[i].path[2], path);
    assert ROUTES[i].path == Api(ROUTES[i].path[2]) + if i == 1 then ["admin"] else [];
    assert i != 1 ==> ROUTES[i].path == Api(ROUTES[i].path[2]);
  }

  lemma RowMatches(path: Path)
    requires RowOf(path) < 12
    ensures Under(ROUTES[RowOf(path)].path, path)
  {
    UnderApi(path[2], path);
  }

  /** Where every path goes in this table. */
  lemma DispatchLaw(path: Path)
    ensures FirstMatch(ROUTES, path) == RowOf(path)
  {
    var f := FirstMatch(ROUTES, path);
    if f < 12 { RowAbove(f, path); }
    if RowOf(path) < 12 { RowMatches(path); }
  }

  /** Which service a row stands for, whether it is public, its limiter, and the methods it lists. */
  lemma RowData(i: nat)
    requires i < 12
    ensures ROUTES[i].service
         == if i in {0, 4, 5} then "user" else if i in {1, 2, 6} then "product" else if i == 7 then "order"
            else if i == 8 then "notification" else if i == 9 then "chat" else "lostfound"
    ensures ROUTES[i].public <==> i in {0, 2, 3}
    ensures ROUTES[i].rateLimiter
         == if i == 0 then "auth" else if i in {2, 3, 5, 8, 9} then "global" else "sensitive"
    ensures ROUTES[i].methods
         == if i in {2, 3} then ["GET"] else if i in {6, 10} then ["POST", "PUT", "PATCH", "DELETE"] else []
  {}

  /** The mutations that rows 6 and 10 list run under the limiter of the rows above them, behind a token. */
  lemma MutationLimiter(req: Req)
    requires req.verb in MUTATIONS
    requires Under(Api("products"), req.path) || Under(Api("lost-found"), req.path)
    requires !Under(Api("products") + ["admin"], req.path)
    ensures ROUTES[6].rateLimiter == ROUTES[10].rateLimiter == "sensitive"
    ensures var route := Dispatched(ROUTES, req.path);
            && route.Some? && route.value.rateLimiter == "global"
            && AuthStage(route.value, req) == if req.tokenValid then Pass else Reject(401)
  {
    var f := FirstMatch(ROUTES, req.path);
    if Under(Api("products"), req.path) {
      OnlyOneName(req.path, "products", f);
    } else {
      OnlyOneName(req.path, "lost-found", f);
    }
  }

  // ---------------------------------------------------------------- the gateway

  const CONFIG := Config(5, 30_000, 1)

  /**
   * How the gateway deals with a request: the CORS layer ends every OPTIONS request, a few pages are
   * its own, `/ws` goes to the socket proxy, and what nobody takes is left to Express.
   */
  datatype Reply = Preflight | OwnPage | Proxied(service: string) | Refused(status: int) | ToSockets | Unrouted

  const OWN_PAGES: seq<Path> := [["metrics"], ["health"], ["health", "live"], ["health", "ready"]]

  predicate IsOwnPage(req: Req) {
    (req.verb == "GET" || req.verb == "HEAD") && req.path in OWN_PAGES
  }

  /** The service whose breaker the request gets to, if it matches, is not limited and passes the auth stage. */
  function Gate(table: seq<Route>, req: Req, limited: bool): Option<string> {
    match Dispatched(table, req.path)
    case None => None
    case Some(route) =>
      if req.verb != "OPTIONS" && !IsOwnPage(req) && !limited && AuthStage(route, req) == Pass
      then Some(route.service) else None
  }

  /** The reply to a path that no router is mounted for. */
  function Unmatched(path: Path): Reply {
    if Under(["api", "v1"], path) then Refused(404) else if Under(["ws"], path) then ToSockets else Unrouted
  }

  /** The reply to a request that gets to no breaker. */
  function Turned(table: seq<Route>, req: Req, limited: bool): Reply {
    if req.verb == "OPTIONS" then Preflight
    else if IsOwnPage(req) then OwnPage
    else if Dispatched(table, req.path).None? then Unmatched(req.path)
    else Refused(if limited then 429 else 401)
  }

  /** The reply, given the breakers as the request leaves them. */
  function ReplyTo(table: seq<Route>, breakers: map<string, State>, req: Req, limited: bool): Reply {
    Gated(breakers, Gate(table, req, limited), Turned(table, req, limited))
  }

  function Gated(breakers: map<string, State>, gate: Option<string>, turned: Reply): Reply {
    match gate
    case Some(s) => if s in breakers && breakers[s].mode == Open then Refused(503) else Proxied(s)
    case None => turned
  }

  /** The breakers after the gate of one service, if any, was asked. */
  function Asked(breakers: map<string, State>, gate: Option<string>, now: int): map<string, State> {
    if gate.Some? && gate.value in breakers
    then breakers[gate.value := Step(CONFIG, breakers[gate.value], Request(now))] else breakers
  }

  /** What the proxy reports of an upstream that answered. */
  function Judged(status: int, now: int): Event {
    if status >= 500 then Failure(now) else Success(now)
  }

  function Services(table: seq<Route>): set<string> {
    set r | r in table :: r.service
  }

  datatype GatewayEvent =
    | Arrive(req: Req, limited: bool, now: int)
    | ProxyRes(service: string, status: int, now: int)
    | ProxyError(service: string, now: int)
    | Health(service: string, now: int)

  /** The request is for this service and nothing on the way there holds it up. */
  predicate GetsThrough(table: seq<Route>, req: Req, limited: bool, service: string) {
    var f := FirstMatch(table, req.path);
    && f < |table| && table[f].service == service
    && req.verb != "OPTIONS" && !(req.verb in ["GET", "HEAD"] && req.path in OWN_PAGES)
    && !limited
    && (req.tokenValid || (table[f].public && (table[f].methods == [] || req.verb in table[f].methods)))
  }

  /** What an event means for the breaker of one service. */
  function For(table: seq<Route>, e: GatewayEvent, service: string): seq<Event> {
    match e
    case Arrive(req, limited, now) => if GetsThrough(table, req, limited, service) then [Request(now)] else []
    case ProxyRes(s, status, now) =>
      if s != service then [] else if 500 <= status then [Failure(now)] else [Success(now)]
    case ProxyError(s, now) => if s == service then [Failure(now)] else []
    case Health(s, now) => if s == service then [Inspect(now)] else []
  }

  function StepGateway(table: seq<Route>, breakers: map<string, State>, e: GatewayEvent): map<string, State> {
    match e
    case Arrive(req, limited, now) => Asked(breakers, Gate(table, req, limited), now)
    case ProxyRes(s, status, now) =>
      if s in breakers then breakers[s := Step(CONFIG, breakers[s], Judged(status, now))] else breakers
    case ProxyError(s, now) =>
      if s in breakers then breakers[s := Step(CONFIG, breakers[s], Failure(now))] else breakers
    case Health(s, now) =>
      if s in breakers then breakers[s := Step(CONFIG, breakers[s], Inspect(now))] else breakers
  }

  class Gateway {
    const table: seq<Route>
    var breakers: map<string, State>

    constructor (table: seq<Route>, now: int)
      ensures this.table == table
      ensures breakers == map s | s in Services(table) :: Init(now)
    {
      this.table := table;
      breakers := map[];
      new;
      var names := Services(table);
      while names != {}
        invariant names <= Services(table)
        invariant breakers == map s | s in Services(table) - names :: Init(now)
        decreases |names|
      {
        var name :| name in names;
        names := names - {name};
        breakers := breakers[name := Init(now)];
      }
    }

    /** One request through CORS, the own pages, and the first router: limiter, auth, methods, breaker. */
    method Handle(req: Req, limited: bool, now: int) returns (reply: Reply)
      requires breakers.Keys == Services(table)
      modifies this
      ensures breakers == StepGateway(table, old(breakers), Arrive(req, limited, now))
      ensures reply == ReplyTo(table, breakers, req, limited)
    {
      if req.verb == "OPTIONS" {
        return Preflight;
      }
      if IsOwnPage(req) {
        return OwnPage;
      }
      var i := 0;
      while i < |table| && !Under(table[i].path, req.path)
        invariant i <= |table|
        invariant forall k :: 0 <= k < i ==> !Under(table[k].path, req.path)
      {
        i := i + 1;
      }
      assert i == FirstMatch(table, req.path);
      if i == |table| {
        return Unmatched(req.path);
      }
      if limited {
        return Refused(429);
      }
      var route := table[i];
      var verdict := AuthStage(route, req);
      if verdict.Reject? {
        return Refused(verdict.status);
      }
      breakers := breakers[route.service := Checked(CONFIG, breakers[route.service], now)];
      reply := if breakers[route.service].mode == Open then Refused(503) else Proxied(route.service);
    }

    /** The proxy got an answer from the service. */
    method OnProxyRes(service: string, status: int, now: int)
      requires service in breakers
      modifies this
      ensures breakers == StepGateway(table, old(breakers), ProxyRes(service, status, now))
    {
      if status >= 500 {
        breakers := breakers[service := AfterFailure(CONFIG, breakers[service], now)];
      } else {
        breakers := breakers[service := AfterSuccess(CONFIG, breakers[service], now)];
      }
    }

    /** The proxy got no answer. */
    method OnProxyError(service: string, now: int)
      requires service in breakers
      modifies this
      ensures breakers == StepGateway(table, old(breakers), ProxyError(service, now))
    {
      breakers := breakers[service := AfterFailure(CONFIG, breakers[service], now)];
    }

    /** The health page asks each breaker for its state, which may half-open it. */
    method OnHealth(service: string, now: int) returns (snapshot: State)
      requires service in breakers
      modifies this
      ensures breakers == StepGateway(table, old(breakers), Health(service, now))
      ensures snapshot == breakers[service]
    {
      breakers := breakers[service := Checked(CONFIG, breakers[service], now)];
      snapshot := breakers[service];
    }
  }

  /** A token is missing where the route asks for one: it is not public, or it lists methods but not this one. */
  predicate LacksToken(route: Route, req: Req) {
    !req.tokenValid && (!route.public || (route.methods != [] && req.verb !in route.methods))
  }

  lemma TokenLaw(route: Route, req: Req)
    ensures AuthStage(route, req) == if req.verb != "OPTIONS" && LacksToken(route, req) then Reject(401) else Pass
  {}

  function UnroutedReply(path: Path): Reply {
    if |path| >= 2 && path[0] == "api" && path[1] == "v1" then Refused(404)
    else if |path| >= 1 && path[0] == "ws" then ToSockets
    else Unrouted
  }

  lemma UnroutedLaw(path: Path)
    ensures Unmatched(path) == UnroutedReply(path)
  {
    var api, ws: Path := ["api", "v1"], ["ws"];
    assert |path| >= 2 ==> (api <= path <==> path[..2] == api);
    assert |path| >= 2 && path[0] == "api" && path[1] == "v1" ==> path[..2] == api;
    assert |path| >= 1 && path[0] == "ws" ==> path[..1] == ws;
  }

  /** A request that ends before the routers: CORS takes every OPTIONS, and four pages are the gateway's own. */
  predicate EndsEarly(req: Req) {
    || req.verb == "OPTIONS"
    || (&& (req.verb == "GET" || req.verb == "HEAD")
        && (req.path == ["metrics"] || req.path == ["health"]
            || req.path == ["health", "live"] || req.path == ["health", "ready"]))
  }

  lemma EndsEarlyLaw(req: Req)
    ensures EndsEarly(req) <==> req.verb == "OPTIONS" || IsOwnPage(req)
  {}

  lemma GateLaw(table: seq<Route>, req: Req, limited: bool)
    ensures var f := FirstMatch(table, req.path);
            var stopped := f == |table| || EndsEarly(req) || limited || LacksToken(table[f], req);
            Gate(table, req, limited) == if stopped then None else Some(table[f].service)
  {
    EndsEarlyLaw(req);
    var f := FirstMatch(table, req.path);
    if f < |table| { TokenLaw(table[f], req); }
  }

  /** The breaker gate on its own: open and the last failure less than 30 seconds ago, or let through. */
  predicate GateReply(service: string, b: State, now: int, reply: Reply, after: State) {
    if b.mode == Open && now - b.lastFailureTime < 30_000 then reply == Refused(503) && after == b
    else
      && reply == Proxied(service)
      && after == if b.mode == Open then b.(mode := HalfOpen, successCount := 0, lastStateChange := now) else b
  }

  /** The reply of a router: limiter, token, breaker, in this order; only the last of them touches a breaker. */
  predicate RoutedReply(
    service: string, breakers: map<string, State>, limited: bool, lacksToken: bool, now: int,
    reply: Reply, after: map<string, State>)
    requires service in breakers && after.Keys == breakers.Keys
  {
    if limited then reply == Refused(429) && after == breakers
    else if lacksToken then reply == Refused(401) && after == breakers
    else
      && after == breakers[service := after[service]]
      && GateReply(service, breakers[service], now, reply, after[service])
  }

  lemma GatedLaw(breakers: map<string, State>, service: string, limited: bool, lacksToken: bool, now: int)
    requires service in breakers
    ensures var gate := if limited || lacksToken then None else Some(service);
            var after := Asked(breakers, gate, now);
            var reply := Gated(after, gate, Refused(if limited then 429 else 401));
            after.Keys == breakers.Keys && RoutedReply(service, breakers, limited, lacksToken, now, reply, after)
  {}

  lemma TurnedLaw(table: seq<Route>, req: Req, limited: bool)
    ensures Turned(table, req, limited)
         == if req.verb == "OPTIONS" then Preflight
            else if EndsEarly(req) then OwnPage
            else if FirstMatch(table, req.path) == |table| then UnroutedReply(req.path)
            else Refused(if limited then 429 else 401)
  {
    EndsEarlyLaw(req);
    UnroutedLaw(req.path);
  }

  /**
   * The reply law, for all tables, requests and breakers: what ends before the routers leaves every
   * breaker alone, and otherwise the first router mounted above the path decides.
   */
  lemma ReplyLaw(table: seq<Route>, breakers: map<string, State>, req: Req, limited: bool, now: int)
    requires breakers.Keys == Services(table)
    ensures var f, after := FirstMatch(table, req.path), StepGateway(table, breakers, Arrive(req, limited, now));
            var reply := ReplyTo(table, after, req, limited);
            if EndsEarly(req) || f == |table| then reply == EarlyReply(req) && after == breakers
            else
              && table[f].service in breakers && after.Keys == breakers.Keys
              && RoutedReply(table[f].service, breakers, limited, LacksToken(table[f], req), now, reply, after)
  {
    GateLaw(table, req, limited);
    TurnedLaw(table, req, limited);
    var f := FirstMatch(table, req.path);
    if f < |table| {
      assert table[f] in table;
      GatedLaw(breakers, table[f].service, limited, LacksToken(table[f], req), now);
    }
  }

  /** The reply to a request that no router is asked about. */
  function EarlyReply(req: Req): Reply {
    if req.verb == "OPTIONS" then Preflight else if EndsEarly(req) then OwnPage else UnroutedReply(req.path)
  }

  /** First match in terms of the segments alone. */
  lemma FirstMatchLaw(table: seq<Route>, path: Path)
    ensures var f := FirstMatch(table, path);
            && (f < |table| ==> table[f].path <= path)
            && (forall k :: 0 <= k < f ==> !(table[k].path <= path))
  {
    var f := FirstMatch(table, path);
    forall k | 0 <= k < f ensures !(table[k].path <= path) { assert !Under(table[k].path, path); }
  }

  function RunGateway(table: seq<Route>, start: int, run: seq<GatewayEvent>): map<string, State> {
    if run == [] then map s | s in Services(table) :: Init(start)
    else StepGateway(table, RunGateway(table, start, run[..|run| - 1]), run[|run| - 1])
  }

  function TraceOf(table: seq<Route>, run: seq<GatewayEvent>, service: string): seq<Event> {
    if run == [] then [] else TraceOf(table, run[..|run| - 1], service) + For(table, run[|run| - 1], service)
  }

  lemma StepFor(table: seq<Route>, breakers: map<string, State>, e: GatewayEvent, service: string)
    requires service in breakers
    ensures StepGateway(table, breakers, e).Keys == breakers.Keys
    ensures StepGateway(table, breakers, e)[service]
         == if For(table, e, service) == [] then breakers[service]
            else Step(CONFIG, breakers[service], For(table, e, service)[0])
    ensures |For(table, e, service)| <= 1
  {}

  /** Each breaker behaves as if alone: refused, limited and other services' requests leave no mark on it. */
  lemma {:induction false} BreakersIndependent(table: seq<Route>, start: int, run: seq<GatewayEvent>, service: string)
    requires service in Services(table)
    ensures RunGateway(table, start, run).Keys == Services(table)
    ensures RunGateway(table, start, run)[service] == Run(Config(5, 30_000, 1), start, TraceOf(table, run, service))
  {
    if run != [] {
      var init, e := run[..|run| - 1], run[|run| - 1];
      BreakersIndependent(table, start, init, service);
      StepFor(table, RunGateway(table, start, init), e, service);
      var before, added := TraceOf(table, init, service), For(table, e, service);
      if added != [] {
        assert added == [added[0]];
        RunAppend(CONFIG, start, before, added[0]);
      } else {
        assert before + added == before;
      }
    }
  }
}
