/** The settings record of the Echo REST server plugin (echo-rest/option.go):
    its defaults, the option functions that update it, and the translation of
    a handler error into the status code and message of the error response.

    Middlewares, handlers, engine callbacks, shared listeners and GraphQL
    sub-options are opaque tokens: the model only tracks which of them are
    stored where and in which order. */
module EchoOption {
  import opened Wrappers

  newtype uint16 = x: int | 0 <= x < 0x1_0000
  newtype int64 = x: int | -0x8000_0000_0000_0000 <= x < 0x8000_0000_0000_0000

  /** The server type this plugin asks modules for (`EchoREST`). */
  const EchoREST: string := "echo-rest"

  const StatusNotFound: int := 404
  const StatusInternalServerError: int := 500

  /** An `echo.MiddlewareFunc`. The first three are the default chain; `BasicAuth`
      is the service's basic-authentication middleware. */
  datatype Middleware = CORS | Tracer | Logger | BasicAuth | UserMiddleware(id: nat)

  /** An `http.Handler` for the root route. */
  datatype Handler = DefaultRootHandler | UserHandler(id: nat)

  /** An `echo.HTTPErrorHandler`: Echo's own, this package's
      `CustomHTTPErrorHandler`, or one supplied by the caller. */
  datatype ErrorHandler = EchoDefaultErrorHandler | CustomErrorHandler | UserErrorHandler(id: nat)

  /** A shared protocol multiplexer (`cmux.CMux`). */
  datatype Mux = Mux(id: nat)

  /** A `func(e *echo.Echo)` engine-tuning callback. */
  datatype EngineFunc = EngineFunc(id: nat)

  /** A `graphqlserver.OptionFunc`. */
  datatype GraphQLOptionFunc = GraphQLOptionFunc(id: nat)

  /** The `option` struct. `graphqlOption` is the sequence of GraphQL
      sub-options applied so far to the zero `graphqlserver.Option`, which
      determines that record. */
  datatype Settings = Settings(
    rootMiddlewares: seq<Middleware>,
    rootHandler: Handler,
    errorHandler: ErrorHandler,
    httpPort: uint16,
    rootPath: string,
    debugMode: bool,
    includeGraphQL: bool,
    jaegerMaxPacketSize: int64,
    sharedListener: Option<Mux>,
    engineOption: Option<EngineFunc>,
    graphqlOption: seq<GraphQLOptionFunc>)

  /** `getDefaultOption`. Fields the literal leaves out hold Go's zero value. */
  function DefaultOption(): (d: Settings)
    ensures d.httpPort == 8000 && d.rootPath == "" && d.debugMode
    ensures d.rootMiddlewares == [CORS, Tracer, Logger]
    ensures !d.includeGraphQL && d.sharedListener == None && d.engineOption == None
    ensures d.rootHandler == DefaultRootHandler && d.errorHandler == CustomErrorHandler
    ensures d.jaegerMaxPacketSize == 0 && d.graphqlOption == []
  {
    Settings(
      rootMiddlewares := [CORS, Tracer, Logger],
      rootHandler := DefaultRootHandler,
      errorHandler := CustomErrorHandler,
      httpPort := 8000,
      rootPath := "",
      debugMode := true,
      includeGraphQL := false,
      jaegerMaxPacketSize := 0,
      sharedListener := None,
      engineOption := None,
      graphqlOption := [])
  }

  /** The fields of `option`, to say which one an option function writes. */
  datatype Field =
    | RootMiddlewaresField | RootHandlerField | ErrorHandlerField | HttpPortField
    | RootPathField | DebugModeField | IncludeGraphQLField | JaegerMaxPacketSizeField
    | SharedListenerField | EngineOptionField | GraphQLOptionField

  /** `s` and `t` hold the same value in field `k`. */
  predicate SameOn(s: Settings, t: Settings, k: Field)
  {
    match k
    case RootMiddlewaresField => s.rootMiddlewares == t.rootMiddlewares
    case RootHandlerField => s.rootHandler == t.rootHandler
    case ErrorHandlerField => s.errorHandler == t.errorHandler
    case HttpPortField => s.httpPort == t.httpPort
    case RootPathField => s.rootPath == t.rootPath
    case DebugModeField => s.debugMode == t.debugMode
    case IncludeGraphQLField => s.includeGraphQL == t.includeGraphQL
    case JaegerMaxPacketSizeField => s.jaegerMaxPacketSize == t.jaegerMaxPacketSize
    case SharedListenerField => s.sharedListener == t.sharedListener
    case EngineOptionField => s.engineOption == t.engineOption
    case GraphQLOptionField => s.graphqlOption == t.graphqlOption
  }

  /** `s` and `t` agree on every field except possibly `k`. */
  predicate AgreeExcept(s: Settings, t: Settings, k: Field)
  {
    && (k != RootMiddlewaresField ==> s.rootMiddlewares == t.rootMiddlewares)
    && (k != RootHandlerField ==> s.rootHandler == t.rootHandler)
    && (k != ErrorHandlerField ==> s.errorHandler == t.errorHandler)
    && (k != HttpPortField ==> s.httpPort == t.httpPort)
    && (k != RootPathField ==> s.rootPath == t.rootPath)
    && (k != DebugModeField ==> s.debugMode == t.debugMode)
    && (k != IncludeGraphQLField ==> s.includeGraphQL == t.includeGraphQL)
    && (k != JaegerMaxPacketSizeField ==> s.jaegerMaxPacketSize == t.jaegerMaxPacketSize)
    && (k != SharedListenerField ==> s.sharedListener == t.sharedListener)
    && (k != EngineOptionField ==> s.engineOption == t.engineOption)
    && (k != GraphQLOptionField ==> s.graphqlOption == t.graphqlOption)
  }

  /** An `OptionFunc`: the closure each `Set*`/`Add*` constructor returns,
      identified by that constructor and its arguments. */
  datatype OptionFunc =
    | SetHTTPPort(port: uint16)
    | SetRootPath(rootPath: string)
    | SetRootHTTPHandler(rootHandler: Handler)
    | SetSharedListener(sharedListener: Option<Mux>)
    | SetDebugMode(debugMode: bool)
    | SetIncludeGraphQL(includeGraphQL: bool)
    | SetJaegerMaxPacketSize(max: int64)
    | SetRootMiddlewares(middlewares: seq<Middleware>)
    | AddRootMiddlewares(middlewares: seq<Middleware>)
    | SetErrorHandler(errorHandler: ErrorHandler)
    | SetEchoEngineOption(echoFunc: Option<EngineFunc>)
    | AddGraphQLOption(opts: seq<GraphQLOptionFunc>)

  /** The one field an option function writes. */
  function FieldOf(f: OptionFunc): Field
  {
    match f
    case SetHTTPPort(_) => HttpPortField
    case SetRootPath(_) => RootPathField
    case SetRootHTTPHandler(_) => RootHandlerField
    case SetSharedListener(_) => SharedListenerField
    case SetDebugMode(_) => DebugModeField
    case SetIncludeGraphQL(_) => IncludeGraphQLField
    case SetJaegerMaxPacketSize(_) => JaegerMaxPacketSizeField
    case SetRootMiddlewares(_) => RootMiddlewaresField
    case AddRootMiddlewares(_) => RootMiddlewaresField
    case SetErrorHandler(_) => ErrorHandlerField
    case SetEchoEngineOption(_) => EngineOptionField
    case AddGraphQLOption(_) => GraphQLOptionField
  }

  /** What calling the option function `f` on an option holding `s` leaves in it. */
  function ApplyOption(f: OptionFunc, s: Settings): (r: Settings)
    ensures AgreeExcept(r, s, FieldOf(f))
    ensures f.SetHTTPPort? ==> r.httpPort == f.port
    ensures f.SetRootPath? ==> r.rootPath == f.rootPath
    ensures f.SetRootHTTPHandler? ==> r.rootHandler == f.rootHandler
    ensures f.SetSharedListener? ==> r.sharedListener == f.sharedListener
    ensures f.SetDebugMode? ==> r.debugMode == f.debugMode
    ensures f.SetIncludeGraphQL? ==> r.includeGraphQL == f.includeGraphQL
    ensures f.SetJaegerMaxPacketSize? ==> r.jaegerMaxPacketSize == f.max
    ensures f.SetErrorHandler? ==> r.errorHandler == f.errorHandler
    ensures f.SetEchoEngineOption? ==> r.engineOption == f.echoFunc
    ensures f.SetRootMiddlewares? ==> r.rootMiddlewares == f.middlewares
    ensures f.AddRootMiddlewares? ==> r.rootMiddlewares == s.rootMiddlewares + f.middlewares
    ensures f.AddGraphQLOption? ==> r.graphqlOption == s.graphqlOption + f.opts
  {
    match f
    case SetHTTPPort(port) => s.(httpPort := port)
    case SetRootPath(rootPath) => s.(rootPath := rootPath)
    case SetRootHTTPHandler(h) => s.(rootHandler := h)
    case SetSharedListener(l) => s.(sharedListener := l)
    case SetDebugMode(b) => s.(debugMode := b)
    case SetIncludeGraphQL(b) => s.(includeGraphQL := b)
    case SetJaegerMaxPacketSize(max) => s.(jaegerMaxPacketSize := max)
    case SetRootMiddlewares(ms) => s.(rootMiddlewares := ms)
    case AddRootMiddlewares(ms) => s.(rootMiddlewares := s.rootMiddlewares + ms)
    case SetErrorHandler(h) => s.(errorHandler := h)
    case SetEchoEngineOption(e) => s.(engineOption := e)
    case AddGraphQLOption(opts) => s.(graphqlOption := s.graphqlOption + opts)
  }

  /** The option after calling each of `fs` on it, first to last. */
  function ApplyOptions(fs: seq<OptionFunc>, s: Settings): Settings
    decreases |fs|
  {
    if fs == [] then s else ApplyOption(fs[|fs| - 1], ApplyOptions(fs[..|fs| - 1], s))
  }

  /** Applying `fs` and then `gs` is applying their concatenation. */
  lemma {:induction false} ApplyOptionsAppend(fs: seq<OptionFunc>, gs: seq<OptionFunc>, s: Settings)
    ensures ApplyOptions(fs + gs, s) == ApplyOptions(gs, ApplyOptions(fs, s))
    decreases |gs|
  {
    if gs == [] {
      assert fs + gs == fs;
    } else {
      var init := gs[..|gs| - 1];
      assert (fs + gs)[..|fs + gs| - 1] == fs + init;
      assert (fs + gs)[|fs + gs| - 1] == gs[|gs| - 1];
      ApplyOptionsAppend(fs, init, s);
    }
  }

  /** A field that none of `fs` writes keeps its value. */
  lemma {:induction false} UntouchedFieldKept(fs: seq<OptionFunc>, s: Settings, k: Field)
    requires forall j :: 0 <= j < |fs| ==> FieldOf(fs[j]) != k
    ensures SameOn(ApplyOptions(fs, s), s, k)
    decreases |fs|
  {
    if fs != [] {
      var prev := ApplyOptions(fs[..|fs| - 1], s);
      UntouchedFieldKept(fs[..|fs| - 1], s, k);
      assert SameOn(ApplyOption(fs[|fs| - 1], prev), prev, k);
    }
  }

  /** The last option function that writes a field decides its final value:
      the field holds what `fs[i]` left in it. */
  lemma LastSetterWins(fs: seq<OptionFunc>, s: Settings, i: nat)
    requires i < |fs|
    requires forall j :: i < j < |fs| ==> FieldOf(fs[j]) != FieldOf(fs[i])
    ensures SameOn(ApplyOptions(fs, s), ApplyOption(fs[i], ApplyOptions(fs[..i], s)), FieldOf(fs[i]))
  {
    var pre, post := fs[..i + 1], fs[i + 1..];
    assert fs == pre + post;
    assert pre[..i] == fs[..i];
    ApplyOptionsAppend(pre, post, s);
    forall j | 0 <= j < |post| ensures FieldOf(post[j]) != FieldOf(fs[i]) {
      assert post[j] == fs[i + 1 + j];
    }
    UntouchedFieldKept(post, ApplyOptions(pre, s), FieldOf(fs[i]));
  }

  /** Applying an option function other than `AddGraphQLOption` twice is
      applying it once, except for `AddRootMiddlewares` with a non-empty
      argument, which appends its middlewares again. `AddGraphQLOption`
      hands its sub-options to the GraphQL option a second time. */
  lemma ApplyOptionIdempotent(f: OptionFunc, s: Settings)
    ensures !f.AddGraphQLOption? ==>
      (ApplyOption(f, ApplyOption(f, s)) == ApplyOption(f, s) <==> (f.AddRootMiddlewares? ==> f.middlewares == []))
    ensures f.AddGraphQLOption? ==>
      ApplyOption(f, ApplyOption(f, s)) == s.(graphqlOption := s.graphqlOption + f.opts + f.opts)
  {
    var once := ApplyOption(f, s);
    if f.AddRootMiddlewares? && ApplyOption(f, once) == once {
      assert |once.rootMiddlewares + f.middlewares| == |once.rootMiddlewares|;
    }
  }

  /** The position of the last `SetRootMiddlewares` in `fs`, if any. */
  function LastReplace(fs: seq<OptionFunc>): (r: Option<nat>)
    ensures r.Some? ==> r.value < |fs| && fs[r.value].SetRootMiddlewares?
    ensures r.Some? ==> forall j :: r.value < j < |fs| ==> !fs[j].SetRootMiddlewares?
    ensures r.None? ==> forall j :: 0 <= j < |fs| ==> !fs[j].SetRootMiddlewares?
    decreases |fs|
  {
    if fs == [] then None
    else if fs[|fs| - 1].SetRootMiddlewares? then Some(|fs| - 1)
    else LastReplace(fs[..|fs| - 1])
  }

  /** What `f` appends to the middleware chain. */
  function AddedBy(f: OptionFunc): seq<Middleware>
  {
    if f.AddRootMiddlewares? then f.middlewares else []
  }

  /** The arguments of every `AddRootMiddlewares` in `fs`, concatenated in call order. */
  function Appended(fs: seq<OptionFunc>): seq<Middleware>
    decreases |fs|
  {
    if fs == [] then [] else Appended(fs[..|fs| - 1]) + AddedBy(fs[|fs| - 1])
  }

  /** The middleware chain the configuration surface promises: the latest
      replacement (or the starting chain when there is none) followed by what
      every later append added, in call order. */
  function ExpectedChain(fs: seq<OptionFunc>, start: seq<Middleware>): seq<Middleware>
  {
    match LastReplace(fs)
    case None => start + Appended(fs)
    case Some(k) => fs[k].middlewares + Appended(fs[k + 1..])
  }

  /** One option function's effect on the middleware chain: a replacement or
      an append (possibly of nothing). */
  lemma ChainStep(f: OptionFunc, s: Settings)
    ensures ApplyOption(f, s).rootMiddlewares
      == if f.SetRootMiddlewares? then f.middlewares else s.rootMiddlewares + AddedBy(f)
  {
    if !f.SetRootMiddlewares? && !f.AddRootMiddlewares? {
      assert FieldOf(f) != RootMiddlewaresField;
    }
  }

  /** The expected chain after one more option function that does not replace
      the chain: what it appends goes last. */
  lemma {:induction false} ExpectedChainSnoc(fs: seq<OptionFunc>, start: seq<Middleware>)
    requires fs != [] && !fs[|fs| - 1].SetRootMiddlewares?
    ensures ExpectedChain(fs, start) == ExpectedChain(fs[..|fs| - 1], start) + AddedBy(fs[|fs| - 1])
  {
    var init, last := fs[..|fs| - 1], fs[|fs| - 1];
    assert LastReplace(fs) == LastReplace(init);
    match LastReplace(init)
    case None =>
    case Some(k) =>
      var tail := fs[k + 1..];
      assert tail[..|tail| - 1] == init[k + 1..];
      assert tail[|tail| - 1] == last;
  }

  lemma {:induction false} MiddlewareChain(fs: seq<OptionFunc>, s: Settings)
    ensures ApplyOptions(fs, s).rootMiddlewares == ExpectedChain(fs, s.rootMiddlewares)
    decreases |fs|
  {
    if fs != [] {
      var init, last := fs[..|fs| - 1], fs[|fs| - 1];
      MiddlewareChain(init, s);
      ChainStep(last, ApplyOptions(init, s));
      if last.SetRootMiddlewares? {
        assert LastReplace(fs) == Some(|fs| - 1);
        assert fs[|fs|..] == [];
      } else {
        ExpectedChainSnoc(fs, s.rootMiddlewares);
      }
    }
  }

  /** With no `SetRootMiddlewares` among `fs`, the default chain CORS, tracer,
      logger stays in front of everything appended. */
  lemma DefaultChainKept(fs: seq<OptionFunc>)
    requires forall j :: 0 <= j < |fs| ==> !fs[j].SetRootMiddlewares?
    ensures ApplyOptions(fs, DefaultOption()).rootMiddlewares == [CORS, Tracer, Logger] + Appended(fs)
  {
    MiddlewareChain(fs, DefaultOption());
  }

  /** The arguments of every `AddGraphQLOption` in `fs`, concatenated in call order. */
  function SubOptions(fs: seq<OptionFunc>): seq<GraphQLOptionFunc>
    decreases |fs|
  {
    if fs == [] then []
    else
      var last := fs[|fs| - 1];
      SubOptions(fs[..|fs| - 1]) + (if last.AddGraphQLOption? then last.opts else [])
  }

  /** The GraphQL sub-options are applied in call order and none is lost. */
  lemma {:induction false} GraphQLOptionsAccumulate(fs: seq<OptionFunc>, s: Settings)
    ensures ApplyOptions(fs, s).graphqlOption == s.graphqlOption + SubOptions(fs)
    decreases |fs|
  {
    if fs != [] {
      GraphQLOptionsAccumulate(fs[..|fs| - 1], s);
    }
  }

  /** The `*option` the option functions write through. */
  class OptionRecord {
    var rootMiddlewares: seq<Middleware>
    var rootHandler: Handler
    var errorHandler: ErrorHandler
    var httpPort: uint16
    var rootPath: string
    var debugMode: bool
    var includeGraphQL: bool
    var jaegerMaxPacketSize: int64
    var sharedListener: Option<Mux>
    var engineOption: Option<EngineFunc>
    var graphqlOption: seq<GraphQLOptionFunc>

    /** The record's current contents. */
    function Value(): Settings
      reads this
    {
      Settings(rootMiddlewares, rootHandler, errorHandler, httpPort, rootPath, debugMode,
               includeGraphQL, jaegerMaxPacketSize, sharedListener, engineOption, graphqlOption)
    }

    /** A record holding `getDefaultOption()`. */
    constructor FromDefault()
      ensures Value() == DefaultOption()
    {
      var d := DefaultOption();
      rootMiddlewares, rootHandler, errorHandler := d.rootMiddlewares, d.rootHandler, d.errorHandler;
      httpPort, rootPath, debugMode := d.httpPort, d.rootPath, d.debugMode;
      includeGraphQL, jaegerMaxPacketSize := d.includeGraphQL, d.jaegerMaxPacketSize;
      sharedListener, engineOption, graphqlOption := d.sharedListener, d.engineOption, d.graphqlOption;
    }

    /** Calls the option function `f` on this record. */
    method Apply(f: OptionFunc)
      modifies this
      ensures Value() == ApplyOption(f, old(Value()))
    {
      match f
      case SetHTTPPort(port) => httpPort := port;
      case SetRootPath(p) => rootPath := p;
      case SetRootHTTPHandler(h) => rootHandler := h;
      case SetSharedListener(l) => sharedListener := l;
      case SetDebugMode(b) => debugMode := b;
      case SetIncludeGraphQL(b) => includeGraphQL := b;
      case SetJaegerMaxPacketSize(max) => jaegerMaxPacketSize := max;
      case SetRootMiddlewares(ms) => rootMiddlewares := ms;
      case AddRootMiddlewares(ms) => rootMiddlewares := rootMiddlewares + ms;
      case SetErrorHandler(h) => errorHandler := h;
      case SetEchoEngineOption(e) => engineOption := e;
      case AddGraphQLOption(opts) => ApplyGraphQLOptions(opts);
    }

    /** Calls each GraphQL sub-option, in order, on the record's GraphQL option. */
    method ApplyGraphQLOptions(opts: seq<GraphQLOptionFunc>)
      modifies this
      ensures Value() == old(Value()).(graphqlOption := old(graphqlOption) + opts)
    {
      var i := 0;
      while i < |opts|
        invariant 0 <= i <= |opts|
        invariant Value() == old(Value()).(graphqlOption := old(graphqlOption) + opts[..i])
      {
        graphqlOption := graphqlOption + [opts[i]];
        i := i + 1;
      }
      assert opts[..i] == opts;
    }
  }

  /** A Go `error`: Echo's `*echo.HTTPError`, a `*net.OpError`, or any other
      error. `text` is what its `Error()` method returns. */
  datatype Error = HTTPError(code: int, text: string) | NetOpError(text: string) | OtherError(text: string)

  /** The status code and message `CustomHTTPErrorHandler` writes in the JSON body. */
  datatype ErrorResponse = ErrorResponse(code: int, message: string)

  function NotFoundMessage(verb: string, path: string): string
  {
    "Resource \"" + verb + " " + path + "\" not found"
  }

  /** The request path can be read back from a not-found message. */
  lemma NotFoundMessageNamesPath(verb: string, path: string, path': string)
    requires NotFoundMessage(verb, path) == NotFoundMessage(verb, path')
    ensures path == path'
  {
    var m, m' := NotFoundMessage(verb, path), NotFoundMessage(verb, path');
    var start := |"Resource \"" + verb + " "|;
    assert |path| == |path'|;
    assert path == m[start..start + |path|];
    assert path' == m'[start..start + |path'|];
  }

  /** `CustomHTTPErrorHandler`: the code and message written for `err`
      (`None` is a nil error) on a request with the given method and path. */
  function CustomHTTPErrorHandler(err: Option<Error>, verb: string, path: string): (r: ErrorResponse)
    ensures r.code == (if err.Some? && err.value.HTTPError? then err.value.code else StatusInternalServerError)
    ensures r.code == StatusNotFound ==> r.message == NotFoundMessage(verb, path)
    ensures r.code != StatusNotFound ==> r.message == (if err.None? then "" else err.value.text)
  {
    var message := if err.Some? then err.value.text else "";
    var code := StatusInternalServerError;
    match err
    case Some(HTTPError(c, _)) =>
      if c == StatusNotFound then ErrorResponse(c, NotFoundMessage(verb, path))
      else ErrorResponse(c, message)
    case _ => ErrorResponse(code, message)
  }
}
