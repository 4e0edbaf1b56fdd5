# Echo REST server plugin — a Dafny model

This project models the Echo REST server plugin of the candi framework
(`echo-rest`):

- the `option` record of server settings, its defaults (`getDefaultOption`)
  and the option functions `SetHTTPPort`, `SetRootPath`, `SetRootHTTPHandler`,
  `SetSharedListener`, `SetDebugMode`, `SetIncludeGraphQL`,
  `SetJaegerMaxPacketSize`, `SetRootMiddlewares`, `AddRootMiddlewares`,
  `SetErrorHandler`, `SetEchoEngineOption` and `AddGraphQLOption`, each of
  which updates a `*option` in place;
- `CustomHTTPErrorHandler`, which turns a handler error into the status code
  and message of the error response;
- `NewServer`, which folds the options over the defaults, runs the
  engine-tuning callback, claims a sub-listener from a shared multiplexer,
  registers `GET /` and `GET /memstats`, mounts every module's REST hook and
  server-handler hook in module order, prints a diagnostic route listing
  (sorted by path, without `/`, `/memstats` and group catch-all routes) and
  only then adds the three GraphQL routes;
- `Serve` (address choice and the classification of `Start`'s error),
  `Shutdown` (engine first, then the listener) and `Name`.

Files:

- `wrappers.dfy` — `Option`.
- `text.dfy` — Go's string order, decimal rendering of a port, `strings.Contains`.
- `option.dfy` — module `EchoOption`: the settings value `Settings`, the
  option functions as the datatype `OptionFunc` with their meaning
  `ApplyOption`, the class `OptionRecord` (the `*option` they write
  through) and the error handler.
- `routing.dfy` — module `Routing`: route registrations and the diagnostic
  listing (an in-place sort of an array of routes, then a filter).
- `rest_server.dfy` — module `RestServer`: the class `Server`
  (`restServer`) with `NewServer`, `Serve`, `Shutdown` and `Name`, and the
  functions and lemmas about route registration and hook calls.

The Echo engine is modelled by what the server puts into it (`Engine`: its
routes in registration order, root middlewares, error handler, the two hide
flags and the listener). The calls the server makes on its collaborators —
the engine callback, the multiplexer's `Match`, each module hook, the
engine's `Start` and `Shutdown`, the listener's `Close` — are recorded, in
order, in the server's `trace`. Middlewares, handlers, callbacks,
multiplexers and GraphQL sub-options are opaque tokens.

## Model

| member | source | states |
|---|---|---|
| EchoOption.DefaultOption | echo-rest/option.go:57-76 | The default option has port 8000, an empty root path, debug mode on, exactly the chain CORS, tracer, logger in that order, the default root handler, `CustomHTTPErrorHandler`, GraphQL off, no shared listener or engine callback, and the zero packet size and GraphQL option. |
| EchoOption.ApplyOption | echo-rest/option.go:79-162 | Each option function writes exactly its own field and leaves every other field as it was; each setter stores its argument; `AddRootMiddlewares` makes the chain the old chain followed by its arguments; `AddGraphQLOption` extends the applied sub-options by its arguments in order. |
| EchoOption.ApplyOptionIdempotent | echo-rest/option.go:79-153 | For every option function but `AddGraphQLOption`, calling it twice gives the same option as calling it once if and only if it is not `AddRootMiddlewares` with a non-empty argument; a second `AddGraphQLOption` hands its sub-options to the GraphQL option again. |
| EchoOption.ApplyOptionsAppend | echo-rest/rest_server.go:38-40 | Applying one sequence of options and then another equals applying their concatenation. |
| EchoOption.ApplyOptions | echo-rest/rest_server.go:38-40 | Reference definition of the option loop: each option function is applied, first to last; `ApplyOptionsAppend`, `UntouchedFieldKept`, `LastSetterWins`, `MiddlewareChain` and `GraphQLOptionsAccumulate` state its properties. |
| EchoOption.UntouchedFieldKept | echo-rest/rest_server.go:38-40 | A field that none of the applied options writes keeps its starting value. |
| EchoOption.LastSetterWins | echo-rest/rest_server.go:38-40 | For any field, the last option function that writes it decides its final value. |
| EchoOption.LastReplace | echo-rest/option.go:128-132 | Finds the last `SetRootMiddlewares` in a sequence of options, or reports that there is none. |
| EchoOption.MiddlewareChain | echo-rest/option.go:128-139 | The final middleware chain is the argument of the last `SetRootMiddlewares` (or the starting chain when there is none), followed by the arguments of every later `AddRootMiddlewares`, in call order. |
| EchoOption.DefaultChainKept | echo-rest/option.go:62-72 | Without a `SetRootMiddlewares`, the resolved chain is CORS, tracer, logger followed by everything appended. |
| EchoOption.GraphQLOptionsAccumulate | echo-rest/option.go:156-162 | After any sequence of options, the GraphQL option holds the sub-options of every `AddGraphQLOption`, in call order and in argument order, after those it started with. |
| EchoOption.OptionRecord.FromDefault | echo-rest/rest_server.go:33-37 | A fresh option record holds `getDefaultOption()`. |
| EchoOption.OptionRecord.Apply | echo-rest/option.go:79-162 | Calling an option function on the record leaves it holding exactly what `ApplyOption` says. |
| EchoOption.OptionRecord.ApplyGraphQLOptions | echo-rest/option.go:158-160 | The sub-option loop applies every sub-option, in order, to the GraphQL option and changes no other field. |
| EchoOption.NotFoundMessageNamesPath | echo-rest/option.go:51 | The not-found message determines the request path: for the same method, two paths with the same message are equal. |
| EchoOption.CustomHTTPErrorHandler | echo-rest/option.go:41-55 | The code is the error's code for an `HTTPError` and 500 otherwise; with code 404 the message is `Resource "<method> <path>" not found`; otherwise it is the error's text, or empty for a nil error. |
| Text.StrLess | echo-rest/rest_server.go:75 | Reference definition of Go's `<` on strings: lexicographic, with a proper prefix first; `StrLessAsymmetric` and `StrLeTransitive` state its properties. |
| Text.StrLessAsymmetric | echo-rest/rest_server.go:74-76 | Two paths never sort before each other. |
| Text.StrLeTransitive | echo-rest/rest_server.go:74-76 | The path order is transitive. |
| Text.DigitChar | echo-rest/rest_server.go:108 | A digit value below ten becomes the decimal digit character of that value. |
| Text.Decimal | echo-rest/rest_server.go:108 | A port renders as a non-empty string of decimal digits without a leading zero. |
| Text.DecimalRoundTrip | echo-rest/rest_server.go:108 | Reading a rendered number back as decimal digits gives the number. |
| Text.Contains | echo-rest/rest_server.go:78 | Reference definition of `strings.Contains`: `sub` is a prefix of `s` or of one of its suffixes; `ContainsOccurrence` relates it to positions. |
| Text.ContainsOccurrence | echo-rest/rest_server.go:78 | `strings.Contains(s, sub)` holds exactly when `sub` occurs at some position of `s`. |
| Routing.Listed | echo-rest/rest_server.go:78 | Reference definition of the filter: a route is printed when its path is neither `/` nor `/memstats` and its name does not contain `(*Group)`. |
| Routing.ListedRoutes | echo-rest/rest_server.go:77-81 | Reference definition of the filtered routes, in their order; `ListedRoutesCount` and `ListingMembership` state its properties. |
| Routing.ListedRoutesCount | echo-rest/rest_server.go:77-81 | A route that passes the filter is printed as often as it is registered; one that fails it (path `/` or `/memstats`, or a name containing `(*Group)`) is never printed. |
| Routing.ListedRoutesPermutation | echo-rest/rest_server.go:74-81 | Filtering two permutations of the same routes gives permutations of each other, so sorting before filtering does not change which routes are printed. |
| Routing.ListingMembership | echo-rest/rest_server.go:77-81 | A route is in the listing if and only if it is registered, its path is neither `/` nor `/memstats` and its name does not contain `(*Group)`. |
| Routing.AdjacentSortedIsSorted | echo-rest/rest_server.go:74-76 | Routes whose paths are in order pairwise at every neighbouring position are sorted by path. |
| Routing.Swap | echo-rest/rest_server.go:74-76 | Exchanging two routes of the array changes nothing else and keeps the same routes. |
| Routing.SortByPath | echo-rest/rest_server.go:74-76 | Sorting the routes in place leaves them ordered by path and a permutation of the routes before. |
| Routing.DiagnosticListing | echo-rest/rest_server.go:73-81 | The printed routes are sorted by path and are, counting repetitions, exactly the registered routes that pass the filter. |
| RestServer.NewEngine | echo-rest/rest_server.go:34 | Reference definition of `echo.New()` as far as the server looks at it: no routes, no middlewares, Echo's own error handler, banner and port shown, no listener; `RegisterFixedRoutes` and `NewServer` build on it. |
| RestServer.ClaimListener | echo-rest/rest_server.go:46-48 | A listener is claimed if and only if a shared multiplexer was given, and it is claimed from that multiplexer. |
| RestServer.MountAll | echo-rest/rest_server.go:59-60 | A hook's routes are registered under the root path, one registration per route, each keeping its method, handler name, handler and middlewares. |
| RestServer.SetupTrace | echo-rest/rest_server.go:42-48 | Reference definition of the set-up calls: the engine callback when one is set, then the claim when a multiplexer is set; `EngineOptionRunsOnce` and `DefaultSetupIsQuiet` state its properties. |
| RestServer.FixedRoutes | echo-rest/rest_server.go:53-57 | Reference definition of `GET /` with the root handler and `GET /memstats` with basic auth; `OnlyMemstatsGuarded` states its property. |
| RestServer.ModuleRoutes | echo-rest/rest_server.go:61-71 | Reference definition of the module registrations: module by module, the REST hook's routes and then the server-handler hook's, nil hooks skipped; `ModuleRoutesAreModuleHandlers` states its property. |
| RestServer.HookRoutes | echo-rest/rest_server.go:63-70 | Reference definition of one hook's registrations: none for a nil hook, otherwise its routes under the root path (`MountAll` states their shape). |
| RestServer.ModuleMount | echo-rest/rest_server.go:62-70 | Reference definition of one module's registrations: its REST hook's routes, then its server-handler hook's for `echo-rest`; `MountModule` is proved to register exactly these. |
| RestServer.ModuleRoutesAreModuleHandlers | echo-rest/rest_server.go:61-71 | Every route the module hooks register dispatches to a module handler. |
| RestServer.HookEvents | echo-rest/rest_server.go:63-70 | Reference definition of one module's hook calls: the REST hook, then the server-handler hook, each only when non-nil; `HookEventsCount` states its property. |
| RestServer.MountTrace | echo-rest/rest_server.go:61-71 | Reference definition of every hook call of the module loop, module by module; `MountTraceIndices`, `MountTraceOrdered` and `HookCalledOnce` state its properties. |
| RestServer.MountTraceIndices | echo-rest/rest_server.go:61-71 | Every call made while mounting is a hook call of one of the given modules. |
| RestServer.MountTraceOrdered | echo-rest/rest_server.go:61-71 | Modules are visited in the given order, and within a module the REST hook is called before the server-handler hook. |
| RestServer.HookEventsCount | echo-rest/rest_server.go:63-70 | Within one module, each hook is called once when it is non-nil and never otherwise. |
| RestServer.HookCalledOnce | echo-rest/rest_server.go:61-71 | Over all modules, each hook of each module is called exactly once when it is non-nil and never when it is nil. |
| RestServer.GraphQLRoutes | echo-rest/rest_server.go:86-91 | With GraphQL on, exactly three routes are added: Any `rootPath+"/graphql"`, GET `rootPath+"/graphql/playground"` and GET `rootPath+"/graphql/voyager"`, serving the query handler, the playground and the voyager respectively, all built with the resolved GraphQL option; with it off, none. |
| RestServer.OnlyMemstatsGuarded | echo-rest/rest_server.go:53-57 | Of the routes the server registers itself, exactly `/memstats` carries the basic-auth middleware. |
| RestServer.NoGraphQLBeforeInjection | echo-rest/rest_server.go:53-71 | No route registered before the GraphQL step dispatches to a GraphQL handler. |
| RestServer.ListingWithoutGraphQL | echo-rest/rest_server.go:73-81 | A listing taken from routes without GraphQL handlers contains none. |
| RestServer.ListingLeavesOutGraphQL | echo-rest/rest_server.go:73-91 | The listing is taken before the GraphQL routes are added, so none of them is ever printed. |
| RestServer.EngineOptionRunsOnce | echo-rest/rest_server.go:42-44 | The engine callback in force after all options are applied is called exactly once, as the first call, and no other callback is called. |
| RestServer.DefaultSetupIsQuiet | echo-rest/rest_server.go:42-48 | Without `SetEchoEngineOption` and `SetSharedListener` among the options, no callback runs and no listener is claimed. |
| RestServer.ListenAddress | echo-rest/rest_server.go:104-109 | Reference definition of the start address: empty with a claimed listener, `:` and the port otherwise; `ListenAddressNamesPort` states its property. |
| RestServer.ListenAddressNamesPort | echo-rest/rest_server.go:104-109 | With a claimed listener the engine starts on the empty address; otherwise on `:` followed by the port, which reads back as exactly the configured port. |
| RestServer.ClassifyStartError | echo-rest/rest_server.go:111-114 | Serving ends fatally if and only if `Start` returned a `*net.OpError`; any other result, nil included, is ignored. |
| RestServer.ResolveOptions | echo-rest/rest_server.go:33-40 | The option loop leaves the record holding the fold of the options, in call order, over the defaults. |
| RestServer.ClaimSetup | echo-rest/rest_server.go:42-48 | The engine callback runs when one was given, then a sub-listener is claimed when a multiplexer was given; returns the stored listener and those calls. |
| RestServer.RegisterFixedRoutes | echo-rest/rest_server.go:50-57 | A fresh engine gets the error handler, the root middlewares and then `GET /` and `GET /memstats`. |
| RestServer.MountModule | echo-rest/rest_server.go:62-70 | One module's turn registers its REST hook's routes and then its server-handler hook's under the root path, each only when the hook is non-nil, and calls exactly those hooks in that order. |
| RestServer.MountModules | echo-rest/rest_server.go:59-71 | The module loop registers every module's hook routes, module by module, and makes exactly the hook calls of `MountTrace`. |
| RestServer.InjectGraphQL | echo-rest/rest_server.go:86-91 | The GraphQL step appends the GraphQL routes after every other route and changes nothing else on the engine. |
| RestServer.Server.NewServer | echo-rest/rest_server.go:32-96 | The new server holds the folded options, a listener exactly when a multiplexer was given, an engine whose routes are `/`, `/memstats`, the module routes and then the GraphQL routes, a listing sorted by path holding exactly the listed routes registered before the GraphQL step, and the trace "callback, claim, hook calls". |
| RestServer.Server.Serve | echo-rest/rest_server.go:98-115 | Serving hides banner and port, hands a claimed listener to the engine, starts the engine on the address `ListenAddress` chooses, and classifies the result; the settings, listener and listing do not change. |
| RestServer.Server.Shutdown | echo-rest/rest_server.go:117-124 | Shutting down stops the engine first and then closes the listener only when there is one; nothing else changes. |
| RestServer.Server.Name | echo-rest/rest_server.go:126-128 | The server reports the generic REST type name, which differs from `echo-rest`. |

## Left out

- The Echo router itself: its trie, what it does with a duplicate method and path, and how `Any` expands into one route per method. Registrations are an appended sequence, and an `Any` registration is one entry. The model keeps every registration, so a method and path registered twice appears twice in the listing; Echo's router keeps one entry per method and path, so the program lists it once.
- The catch-all routes that `Group` adds for the root path are not modelled. The `factory` and `echo` packages that create them are not part of this model. Their names contain `(*Group)`, so the listing leaves them out either way.
- What the middlewares do (CORS, tracer, logger, basic auth), the values read from `env.BaseEnv()`, and `echo.WrapMiddleware`/`EchoWrapMiddleware`/`EchoLoggerMiddleware`. Middlewares are opaque tokens.
- The cmux `HTTP1Fast` byte-sniffing matcher and socket binding, accepting and closing. A claimed listener is an opaque handle that records its multiplexer and the extra method `PATCH`.
- What the engine-tuning callback does to the engine: its call is recorded in the trace, and its effects are not modelled.
- How the GraphQL handler is built from the service, and the memstats, playground and voyager handlers. A GraphQL route records which handler it serves and the sub-options it was built with.
- The GraphQL sub-options and `graphqlserver.Option` are foreign. The option is modelled as the sequence of sub-options applied to it.
- `Start` is blocking network I/O. Its returned error is a parameter of `Serve`.
- The `context` deadline in `Shutdown`, and the goroutines serving connections. These are concurrency and timing.
- Logging, the ANSI-coloured printing, the `%-6s %-30s` route-line layout, the deferred shutdown message and `log.Panicf`. The listing holds the printed routes in order. A panic is the `Fatal` outcome.
- The JSON serialisation of the error response. `CustomHTTPErrorHandler` computes only the code and message.
- The global assignment `restserver.URLParam = URLParam`, a side effect on a foreign package.
- `jaegerMaxPacketSize` is stored and settable but never read in option.go or rest_server.go: the tracer reads its limit from the environment instead (echo-rest/option.go:68).
- `debugMode` is likewise settable and never read in option.go or rest_server.go: the logger takes its debug flag from the environment (echo-rest/option.go:71).
- EchoOption.ApplyOptionIdempotent: says of `AddGraphQLOption` only that a second call hands its sub-options to the GraphQL option again. Whether that changes the GraphQL option depends on what the foreign sub-options do, which the history representation cannot decide.
- `types.REST` comes from a package that is not part of this model. Its value is taken to be `"rest"`.
- Strings are sequences of code points. Go orders strings by their UTF-8 bytes, and for valid UTF-8 that is the same order.
- `service.GetDependency().GetMiddleware()` is not modelled: the basic-auth middleware is the token `BasicAuth`.
- A module's hook is modelled by the routes it registers. Anything else a hook does is not modelled.
