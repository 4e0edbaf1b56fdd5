/** The Echo REST server of the plugin (echo-rest/rest_server.go): building
    it from a service and option functions, serving and shutting down.

    The Echo engine is modelled by the state this server puts into it
    (`Engine`); what the server asks of its collaborators (the engine-tuning
    callback, the shared multiplexer, each module hook, the engine's start
    and shutdown, the listener's close) is recorded in order in `trace`. */
module RestServer {
  import opened Wrappers
  import opened Text
  import opened EchoOption
  import opened Routing

  /** `types.REST`, the name the server reports. */
  const REST: string := "rest"

  /** The name Echo gives a route whose handler went through `echo.WrapHandler`. */
  const WrapHandlerName: string := "github.com/labstack/echo.WrapHandler.func1"

  const GET: RouteMethod := Method("GET")

  /** The extra request-line method the shared-listener matcher accepts
      (`cmux.HTTP1Fast(http.MethodPatch)`). */
  const PATCH: string := "PATCH"

  /** A sub-listener claimed from a shared multiplexer by `Match`, with the
      extra methods its HTTP/1 matcher accepts. */
  datatype Listener = SubListener(mux: Mux, extraMethods: seq<string>)

  /** A route a module hook registers on the root-path group; `path` is
      relative to the group. */
  datatype ModuleRoute = ModuleRoute(verb: RouteMethod, path: string, name: string,
                                     handler: nat, middlewares: seq<Middleware>)

  /** A service module: its REST hook (`RESTHandler()`, `None` for nil) and
      its server-handler hooks by server type (`ServerHandler(t)`, nil for a
      missing key). A hook is given by the routes it registers. */
  datatype Module = Module(restHandler: Option<seq<ModuleRoute>>,
                           serverHandlers: map<string, seq<ModuleRoute>>)

  function ServerHandler(m: Module, serverType: string): Option<seq<ModuleRoute>>
  {
    if serverType in m.serverHandlers then Some(m.serverHandlers[serverType]) else None
  }

  /** The service factory, reduced to its modules in `GetModules()` order. */
  datatype Service = Service(modules: seq<Module>)

  /** What the server sets on its `*echo.Echo`. */
  datatype Engine = Engine(routes: seq<Route>, middlewares: seq<Middleware>,
                           errorHandler: ErrorHandler, hideBanner: bool, hidePort: bool,
                           listener: Option<Listener>)

  /** `echo.New()`, as far as this server looks at it. */
  function NewEngine(): Engine
  {
    Engine([], [], EchoDefaultErrorHandler, false, false, None)
  }

  datatype Hook = RestHook | ServerHook

  datatype Event =
    | RanEngineOption(echoFunc: EngineFunc)
    | ClaimedListener(mux: Mux)
    | MountedHook(index: nat, hook: Hook)
    | EngineStarted(address: string)
    | EngineShutdown
    | ListenerClosed(listener: Listener)

  /** How `Serve` ends: it panics on a `*net.OpError` and returns otherwise. */
  datatype ServeOutcome = Fatal(err: Error) | Ignored(result: Option<Error>)

  /** The listener `NewServer` stores. */
  function ClaimListener(s: Settings): (l: Option<Listener>)
    ensures l.Some? <==> s.sharedListener.Some?
    ensures l.Some? ==> l.value.mux == s.sharedListener.value
  {
    match s.sharedListener
    case None => None
    case Some(m) => Some(SubListener(m, [PATCH]))
  }

  /** The calls `NewServer` makes before it registers routes: the engine
      callback, then the claim on the shared multiplexer. */
  function SetupTrace(s: Settings): seq<Event>
  {
    (if s.engineOption.Some? then [RanEngineOption(s.engineOption.value)] else [])
    + (if s.sharedListener.Some? then [ClaimedListener(s.sharedListener.value)] else [])
  }

  /** `GET /`, serving the configured root handler. */
  function RootRoute(s: Settings): Route
  {
    Route(GET, "/", WrapHandlerName, Root(s.rootHandler), [])
  }

  /** `GET /memstats`, behind the service's basic authentication. */
  const MemstatsRoute: Route := Route(GET, "/memstats", WrapHandlerName, Memstats, [BasicAuth])

  /** `GET /` and `GET /memstats`, registered directly on the engine. */
  function FixedRoutes(s: Settings): seq<Route>
  {
    [RootRoute(s), MemstatsRoute]
  }

  /** The routes a hook adds through the group for `prefix`. */
  function MountAll(rs: seq<ModuleRoute>, prefix: string): (r: seq<Route>)
    ensures |r| == |rs|
    ensures forall i :: 0 <= i < |rs| ==>
      && r[i].verb == rs[i].verb && r[i].path == prefix + rs[i].path && r[i].name == rs[i].name
      && r[i].endpoint == ModuleHandler(rs[i].handler) && r[i].middlewares == rs[i].middlewares
  {
    seq(|rs|, i requires 0 <= i < |rs| =>
      Route(rs[i].verb, prefix + rs[i].path, rs[i].name, ModuleHandler(rs[i].handler), rs[i].middlewares))
  }

  function HookRoutes(h: Option<seq<ModuleRoute>>, prefix: string): seq<Route>
  {
    match h
    case None => []
    case Some(rs) => MountAll(rs, prefix)
  }

  /** What module `m` registers: its REST hook's routes, then its
      server-handler hook's for this server type. */
  function ModuleMount(m: Module, prefix: string): seq<Route>
  {
    HookRoutes(m.restHandler, prefix) + HookRoutes(ServerHandler(m, EchoREST), prefix)
  }

  /** Every route the modules register, module by module. */
  function ModuleRoutes(ms: seq<Module>, prefix: string): seq<Route>
    decreases |ms|
  {
    if ms == [] then []
    else ModuleRoutes(ms[..|ms| - 1], prefix) + ModuleMount(ms[|ms| - 1], prefix)
  }

  /** Every route registered by a module hook dispatches to a module handler. */
  lemma {:induction false} ModuleRoutesAreModuleHandlers(ms: seq<Module>, prefix: string)
    ensures forall i :: 0 <= i < |ModuleRoutes(ms, prefix)| ==> ModuleRoutes(ms, prefix)[i].endpoint.ModuleHandler?
    decreases |ms|
  {
    if ms != [] {
      ModuleRoutesAreModuleHandlers(ms[..|ms| - 1], prefix);
    }
  }

  /** The hook calls for module `m` at position `i`. */
  function HookEvents(m: Module, i: nat): seq<Event>
  {
    (if m.restHandler.Some? then [MountedHook(i, RestHook)] else [])
    + (if ServerHandler(m, EchoREST).Some? then [MountedHook(i, ServerHook)] else [])
  }

  /** Every hook call for the modules `ms`, in order. */
  function MountTrace(ms: seq<Module>): seq<Event>
    decreases |ms|
  {
    if ms == [] then []
    else MountTrace(ms[..|ms| - 1]) + HookEvents(ms[|ms| - 1], |ms| - 1)
  }

  /** Every hook call names one of the modules. */
  lemma {:induction false} MountTraceIndices(ms: seq<Module>)
    ensures forall p :: 0 <= p < |MountTrace(ms)| ==> MountTrace(ms)[p].MountedHook? && MountTrace(ms)[p].index < |ms|
    decreases |ms|
  {
    if ms != [] {
      MountTraceIndices(ms[..|ms| - 1]);
    }
  }

  /** `e` may be called before `e'`: an earlier module, or the REST hook of
      the same module before its server-handler hook. */
  predicate HookBefore(e: Event, e': Event)
  {
    e.MountedHook? && e'.MountedHook? &&
    (e.index < e'.index || (e.index == e'.index && e.hook == RestHook && e'.hook == ServerHook))
  }

  /** Modules are visited in order, and each module's REST hook goes before
      its server-handler hook. */
  lemma {:induction false} MountTraceOrdered(ms: seq<Module>)
    ensures forall p, q :: 0 <= p < q < |MountTrace(ms)| ==> HookBefore(MountTrace(ms)[p], MountTrace(ms)[q])
    decreases |ms|
  {
    if ms != [] {
      var init := ms[..|ms| - 1];
      MountTraceOrdered(init);
      MountTraceIndices(init);
      var t, t0, t1 := MountTrace(ms), MountTrace(init), HookEvents(ms[|ms| - 1], |ms| - 1);
      assert t == t0 + t1;
      forall p, q | 0 <= p < q < |t| ensures HookBefore(t[p], t[q]) {
        if q < |t0| {
          assert t[p] == t0[p] && t[q] == t0[q];
        } else if p < |t0| {
          assert t[p] == t0[p];
        }
      }
    }
  }

  /** Module `m` has hook `h` (a non-nil result from `RESTHandler()` or
      from `ServerHandler(EchoREST)`). */
  predicate HasHook(m: Module, h: Hook)
  {
    match h
    case RestHook => m.restHandler.Some?
    case ServerHook => ServerHandler(m, EchoREST).Some?
  }

  lemma HookEventsCount(m: Module, n: nat, i: nat, h: Hook)
    ensures multiset(HookEvents(m, n))[MountedHook(i, h)] == if i == n && HasHook(m, h) then 1 else 0
  {
  }

  /** A hook is called once when the module has it and never otherwise. */
  lemma {:induction false} HookCalledOnce(ms: seq<Module>, i: nat, h: Hook)
    ensures multiset(MountTrace(ms))[MountedHook(i, h)] == if i < |ms| && HasHook(ms[i], h) then 1 else 0
    decreases |ms|
  {
    if ms != [] {
      var init, n := ms[..|ms| - 1], |ms| - 1;
      HookCalledOnce(init, i, h);
      HookEventsCount(ms[n], n, i, h);
      assert MountTrace(ms) == MountTrace(init) + HookEvents(ms[n], n);
      assert multiset(MountTrace(ms)) == multiset(MountTrace(init)) + multiset(HookEvents(ms[n], n));
      if i < n {
        assert ms[i] == init[i];
      }
    }
  }

  /** The GraphQL query endpoint, for every method. */
  function QueryRoute(s: Settings): Route
  {
    Route(AnyMethod, s.rootPath + "/graphql", WrapHandlerName, GraphQL(ServeGraphQL, s.graphqlOption), [])
  }

  function PlaygroundRoute(s: Settings): Route
  {
    Route(GET, s.rootPath + "/graphql/playground", WrapHandlerName, GraphQL(ServePlayground, s.graphqlOption), [])
  }

  function VoyagerRoute(s: Settings): Route
  {
    Route(GET, s.rootPath + "/graphql/voyager", WrapHandlerName, GraphQL(ServeVoyager, s.graphqlOption), [])
  }

  /** The three GraphQL routes, when enabled. */
  function GraphQLRoutes(s: Settings): (r: seq<Route>)
    ensures |r| == if s.includeGraphQL then 3 else 0
    ensures s.includeGraphQL ==>
      && r[0].verb == AnyMethod && r[0].path == s.rootPath + "/graphql" && r[0].endpoint == GraphQL(ServeGraphQL, s.graphqlOption)
      && r[1].verb == GET && r[1].path == s.rootPath + "/graphql/playground" && r[1].endpoint == GraphQL(ServePlayground, s.graphqlOption)
      && r[2].verb == GET && r[2].path == s.rootPath + "/graphql/voyager" && r[2].endpoint == GraphQL(ServeVoyager, s.graphqlOption)
    ensures forall i :: 0 <= i < |r| ==> r[i].endpoint.GraphQL? && r[i].endpoint.options == s.graphqlOption
  {
    if !s.includeGraphQL then [] else [QueryRoute(s), PlaygroundRoute(s), VoyagerRoute(s)]
  }

  /** Of the routes the server registers itself, exactly `/memstats` is
      guarded by basic authentication. */
  lemma OnlyMemstatsGuarded(s: Settings)
    ensures forall r :: r in FixedRoutes(s) + GraphQLRoutes(s) ==> (BasicAuth in r.middlewares <==> r.path == "/memstats")
  {
    forall r | r in GraphQLRoutes(s) ensures r.path != "/memstats" {
      var p := r.path;
      assert p[|p| - 1] != 's';
    }
  }

  /** No route of `rs` dispatches to a GraphQL handler. */
  predicate NoGraphQL(rs: seq<Route>)
  {
    forall i :: 0 <= i < |rs| ==> !rs[i].endpoint.GraphQL?
  }

  lemma NoGraphQLConcat(rs: seq<Route>, ts: seq<Route>)
    requires NoGraphQL(rs) && NoGraphQL(ts)
    ensures NoGraphQL(rs + ts)
  {
    forall i | 0 <= i < |rs + ts| ensures !(rs + ts)[i].endpoint.GraphQL? {
      if i >= |rs| {
        assert (rs + ts)[i] == ts[i - |rs|];
      }
    }
  }

  /** No route the server registers before the GraphQL step dispatches to a
      GraphQL handler. */
  lemma NoGraphQLBeforeInjection(s: Settings, ms: seq<Module>)
    ensures NoGraphQL(FixedRoutes(s) + ModuleRoutes(ms, s.rootPath))
  {
    ModuleRoutesAreModuleHandlers(ms, s.rootPath);
    NoGraphQLConcat(FixedRoutes(s), ModuleRoutes(ms, s.rootPath));
  }

  /** A listing taken from routes without GraphQL handlers holds none. */
  lemma ListingWithoutGraphQL(listing: seq<Route>, routes: seq<Route>)
    requires multiset(listing) == multiset(ListedRoutes(routes))
    requires NoGraphQL(routes)
    ensures NoGraphQL(listing)
  {
    forall k | 0 <= k < |listing| ensures !listing[k].endpoint.GraphQL? {
      var r := listing[k];
      ListedRoutesCount(routes, r);
      assert r in multiset(listing);
      assert r in routes;
    }
  }

  /** The listing is taken before the GraphQL routes exist, so none of them
      is ever listed. */
  lemma ListingLeavesOutGraphQL(s: Settings, ms: seq<Module>, listing: seq<Route>)
    requires multiset(listing) == multiset(ListedRoutes(FixedRoutes(s) + ModuleRoutes(ms, s.rootPath)))
    ensures forall r :: r in GraphQLRoutes(s) ==> r !in listing
  {
    NoGraphQLBeforeInjection(s, ms);
    ListingWithoutGraphQL(listing, FixedRoutes(s) + ModuleRoutes(ms, s.rootPath));
  }

  /** The engine callback in force once all options are applied is the
      first call of the set-up, it is called exactly once, and no other
      callback is ever called. */
  lemma EngineOptionRunsOnce(s: Settings, ms: seq<Module>, f: EngineFunc)
    ensures multiset(SetupTrace(s) + MountTrace(ms))[RanEngineOption(f)] == if s.engineOption == Some(f) then 1 else 0
    ensures s.engineOption.Some? ==> (SetupTrace(s) + MountTrace(ms))[0] == RanEngineOption(s.engineOption.value)
  {
    MountTraceIndices(ms);
    var mt := MountTrace(ms);
    assert RanEngineOption(f) !in mt;
    assert multiset(SetupTrace(s) + mt) == multiset(SetupTrace(s)) + multiset(mt);
  }

  /** Without a `SetEchoEngineOption` and a `SetSharedListener` among the
      options, no engine callback runs and no listener is claimed. */
  lemma DefaultSetupIsQuiet(opts: seq<OptionFunc>)
    requires forall j :: 0 <= j < |opts| ==> !opts[j].SetEchoEngineOption? && !opts[j].SetSharedListener?
    ensures SetupTrace(ApplyOptions(opts, DefaultOption())) == []
    ensures ClaimListener(ApplyOptions(opts, DefaultOption())) == None
  {
    UntouchedFieldKept(opts, DefaultOption(), EngineOptionField);
    UntouchedFieldKept(opts, DefaultOption(), SharedListenerField);
  }

  /** The address `Serve` passes to `Start`. */
  function ListenAddress(listener: Option<Listener>, port: uint16): string
  {
    if listener.Some? then "" else ":" + Decimal(port as nat)
  }

  predicate AllDigits(s: string)
  {
    forall i :: 0 <= i < |s| ==> IsDigit(s[i])
  }

  /** The port of a `:port` address, the way a listener reads it. */
  function ParsePortAddress(a: string): Option<nat>
  {
    if |a| >= 2 && a[0] == ':' && AllDigits(a[1..]) then Some(DigitsValue(a[1..])) else None
  }

  /** A claimed listener is started with the empty address; otherwise the
      address names exactly the configured port. */
  lemma ListenAddressNamesPort(listener: Option<Listener>, port: uint16)
    ensures listener.Some? ==> ListenAddress(listener, port) == ""
    ensures listener.None? ==> ParsePortAddress(ListenAddress(listener, port)) == Some(port as nat)
  {
    if listener.None? {
      var d := Decimal(port as nat);
      assert (":" + d)[1..] == d;
      DecimalRoundTrip(port as nat);
    }
  }

  /** The type switch at the end of `Serve`. */
  function ClassifyStartError(err: Option<Error>): (r: ServeOutcome)
    ensures r.Fatal? <==> err.Some? && err.value.NetOpError?
    ensures r.Fatal? ==> r.err == err.value
    ensures r.Ignored? ==> r.result == err
  {
    match err
    case Some(NetOpError(_)) => Fatal(err.value)
    case _ => Ignored(err)
  }

  /** The option loop of `NewServer`: each option function is called, in
      order, on a record that starts from `getDefaultOption()`. */
  method ResolveOptions(opts: seq<OptionFunc>) returns (s: Settings)
    ensures s == ApplyOptions(opts, DefaultOption())
  {
    var o := new OptionRecord.FromDefault();
    var i := 0;
    while i < |opts|
      invariant 0 <= i <= |opts|
      invariant o.Value() == ApplyOptions(opts[..i], DefaultOption())
    {
      assert opts[..i + 1][..i] == opts[..i];
      o.Apply(opts[i]);
      i := i + 1;
    }
    assert opts[..i] == opts;
    s := o.Value();
  }

  /** The set-up step of `NewServer`: the engine callback runs when one was
      given, and a sub-listener is claimed from the shared multiplexer when
      one was given: the listener stored and the calls made. */
  method ClaimSetup(s: Settings) returns (l: Option<Listener>, tr: seq<Event>)
    ensures l == ClaimListener(s)
    ensures tr == SetupTrace(s)
  {
    tr := [];
    if s.engineOption.Some? {
      tr := tr + [RanEngineOption(s.engineOption.value)];
    }
    l := None;
    if s.sharedListener.Some? {
      l := Some(SubListener(s.sharedListener.value, [PATCH]));
      tr := tr + [ClaimedListener(s.sharedListener.value)];
    }
  }

  /** A fresh engine with the error handler, the root middlewares, `GET /`
      and `GET /memstats`. */
  method RegisterFixedRoutes(s: Settings) returns (e: Engine)
    ensures e == NewEngine().(routes := FixedRoutes(s), middlewares := s.rootMiddlewares,
                              errorHandler := s.errorHandler)
  {
    e := NewEngine();
    e := e.(errorHandler := s.errorHandler);
    e := e.(middlewares := e.middlewares + s.rootMiddlewares);
    e := e.(routes := e.routes + [RootRoute(s)]);
    e := e.(routes := e.routes + [MemstatsRoute]);
  }

  /** One module's turn in the module loop of `NewServer`: its REST hook and
      then its server-handler hook, each only when non-nil, register their
      routes under `prefix`: the routes registered and the hook calls made. */
  method MountModule(m: Module, k: nat, prefix: string) returns (routes: seq<Route>, events: seq<Event>)
    ensures routes == ModuleMount(m, prefix)
    ensures events == HookEvents(m, k)
  {
    routes, events := [], [];
    if m.restHandler.Some? {
      routes := routes + MountAll(m.restHandler.value, prefix);
      events := events + [MountedHook(k, RestHook)];
    }
    var h := ServerHandler(m, EchoREST);
    if h.Some? {
      routes := routes + MountAll(h.value, prefix);
      events := events + [MountedHook(k, ServerHook)];
    }
  }

  /** The module loop of `NewServer`: every module in order: the routes
      registered and the hook calls made. */
  method MountModules(modules: seq<Module>, prefix: string) returns (routes: seq<Route>, events: seq<Event>)
    ensures routes == ModuleRoutes(modules, prefix)
    ensures events == MountTrace(modules)
  {
    routes, events := [], [];
    var k := 0;
    while k < |modules|
      invariant 0 <= k <= |modules|
      invariant routes == ModuleRoutes(modules[..k], prefix)
      invariant events == MountTrace(modules[..k])
    {
      var rs, ev := MountModule(modules[k], k, prefix);
      assert modules[..k + 1][..k] == modules[..k];
      routes, events := routes + rs, events + ev;
      k := k + 1;
    }
    assert modules[..k] == modules;
  }

  /** The GraphQL step of `NewServer`: with `includeGraphQL`, the query,
      playground and voyager routes under the root path, registered in that
      order after everything else. */
  method InjectGraphQL(e: Engine, s: Settings) returns (e': Engine)
    ensures e' == e.(routes := e.routes + GraphQLRoutes(s))
  {
    e' := e;
    if s.includeGraphQL {
      e' := e'.(routes := e'.routes + [QueryRoute(s)]);
      e' := e'.(routes := e'.routes + [PlaygroundRoute(s)]);
      e' := e'.(routes := e'.routes + [VoyagerRoute(s)]);
    }
  }

  /** The plugin's `restServer`. */
  class Server {
    var engine: Engine
    const service: Service
    var listener: Option<Listener>
    var opt: Settings
    /** The routes printed as `[REST-ROUTE]` lines, in printing order. */
    var listing: seq<Route>
    var trace: seq<Event>

    /** `NewServer(service, opts...)`. */
    constructor NewServer(service: Service, opts: seq<OptionFunc>)
      ensures this.service == service
      ensures opt == ApplyOptions(opts, DefaultOption())
      ensures listener == ClaimListener(opt)
      ensures engine == NewEngine().(
        routes := FixedRoutes(opt) + ModuleRoutes(service.modules, opt.rootPath) + GraphQLRoutes(opt),
        middlewares := opt.rootMiddlewares,
        errorHandler := opt.errorHandler)
      ensures SortedByPath(listing)
      ensures multiset(listing) == multiset(ListedRoutes(FixedRoutes(opt) + ModuleRoutes(service.modules, opt.rootPath)))
      ensures trace == SetupTrace(opt) + MountTrace(service.modules)
    {
      var s := ResolveOptions(opts);

      var l, tr := ClaimSetup(s);
      var e := RegisterFixedRoutes(s);
      var moduleRoutes, mounted := MountModules(service.modules, s.rootPath);
      e := e.(routes := e.routes + moduleRoutes);
      tr := tr + mounted;

      var printed := DiagnosticListing(e.routes);

      e := InjectGraphQL(e, s);

      engine, this.service, listener, opt, listing, trace := e, service, l, s, printed, tr;
    }

    /** `Serve()`: `startErr` is what the engine's blocking `Start` returns
        for the chosen listener and address. */
    method Serve(startErr: Option<Error>) returns (outcome: ServeOutcome)
      modifies this
      ensures engine == old(engine).(hideBanner := true, hidePort := true,
                                     listener := if listener.Some? then listener else old(engine.listener))
      ensures trace == old(trace) + [EngineStarted(ListenAddress(listener, opt.httpPort))]
      ensures outcome == ClassifyStartError(startErr)
      ensures listener == old(listener) && opt == old(opt) && listing == old(listing)
    {
      engine := engine.(hideBanner := true, hidePort := true);
      var address: string;
      if listener.Some? {
        engine := engine.(listener := listener);
        address := "";
      } else {
        address := ":" + Decimal(opt.httpPort as nat);
      }
      trace := trace + [EngineStarted(address)];
      outcome := ClassifyStartError(startErr);
    }

    /** `Shutdown(ctx)`: the engine first, then the listener if there is one. */
    method Shutdown()
      modifies this
      ensures trace == old(trace) + [EngineShutdown]
                       + (if listener.Some? then [ListenerClosed(listener.value)] else [])
      ensures engine == old(engine) && listener == old(listener) && opt == old(opt) && listing == old(listing)
    {
      trace := trace + [EngineShutdown];
      if listener.Some? {
        trace := trace + [ListenerClosed(listener.value)];
      }
    }

    /** `Name()`: the generic REST type name, not this plugin's own `EchoREST`. */
    function Name(): (n: string)
      ensures n == REST && n != EchoREST
    {
      REST
    }
  }
}
