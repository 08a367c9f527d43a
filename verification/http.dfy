/**
 * The HTTP transport: registration of handler prototypes as ServeMux routes
 * (`verb + " " + prefix + path`), middleware wrapping, the per-request
 * pipeline (clone, inject, bind, optional JSON body, Handle) with its mapping
 * of the handler's reply to a status and a body, and the guard on the
 * running server.
 */
module HttpTransport {
  import opened Wrappers
  import opened Reflect
  import opened GoStrings
  import opened Injection
  import opened Binding
  import opened Handlers

  // ---------------------------------------------------------------------
  // Routes and middleware

  /** A `func(http.Handler) http.Handler`, known by identity only. */
  datatype Middleware = Middleware(id: nat)

  /** An http.Handler built by Register: the endpoint of a prototype, wrapped by middleware. */
  datatype Chain = Endpoint(prototype: Instance) | Wrapped(mw: Middleware, next: Chain)

  /** The handler after applying `mws` from last to first: `mws[0]` ends up outermost. */
  function Wrap(mws: seq<Middleware>, base: Chain): Chain
    decreases |mws|
  {
    if mws == [] then base else Wrapped(mws[0], Wrap(mws[1..], base))
  }

  /** The middleware a request passes through, outermost first. */
  function Layers(h: Chain): seq<Middleware> {
    match h
    case Endpoint(_) => []
    case Wrapped(mw, next) => [mw] + Layers(next)
  }

  /** The endpoint at the centre of a chain. */
  function Core(h: Chain): Chain {
    match h
    case Endpoint(_) => h
    case Wrapped(_, next) => Core(next)
  }

  /** A request meets the middleware in registration order, then the endpoint. */
  lemma {:induction false} WrapLayers(mws: seq<Middleware>, p: Instance)
    ensures Layers(Wrap(mws, Endpoint(p))) == mws
    ensures Core(Wrap(mws, Endpoint(p))) == Endpoint(p)
    decreases |mws|
  {
    if mws != [] {
      WrapLayers(mws[1..], p);
    }
  }

  /** The route tags of a prototype: `method` and `path` of its first marker field. */
  function RouteMethod(fields: seq<Field>): string { PatternTag(fields, "method") }
  function RoutePath(fields: seq<Field>): string { PatternTag(fields, "path") }

  /** The ServeMux pattern of a route. */
  function RoutePattern(verb: string, prefix: string, path: string): string {
    verb + " " + prefix + path
  }

  /** The pattern Register builds for a prototype's fields, None when a route tag is empty. */
  function PatternFor(prefix: string, fields: seq<Field>): (r: Option<string>)
    ensures r.Some? <==> RouteMethod(fields) != "" && RoutePath(fields) != ""
    ensures r.Some? ==> HasPrefix(r.value, RouteMethod(fields) + " " + prefix)
    ensures r.Some? ==> r.value == RouteMethod(fields) + " " + prefix + RoutePath(fields)
  {
    if RouteMethod(fields) == "" || RoutePath(fields) == "" then None
    else Some(RoutePattern(RouteMethod(fields), prefix, RoutePath(fields)))
  }

  /**
   * Registering a prototype under Group(p2) of a transport with prefix p1 gives the pattern
   * of a prototype whose path tag is p2 + path registered under p1.
   */
  lemma NestedGroups(p1: string, p2: string, fields: seq<Field>)
    requires PatternFor(p1 + p2, fields).Some?
    ensures PatternFor(p1 + p2, fields).value == RoutePattern(RouteMethod(fields), p1, p2 + RoutePath(fields))
  {
    var verb, path := RouteMethod(fields), RoutePath(fields);
    assert verb + " " + (p1 + p2) + path == verb + " " + p1 + (p2 + path);
  }

  /** A method tag (`verb`) without a space is the pattern's first space-separated word. */
  lemma MethodRecoverable(verb: string, prefix: string, path: string)
    requires ' ' !in verb
    ensures Split(RoutePattern(verb, prefix, path), ' ')[0] == verb
  {
    SplitFirst(verb, ' ', prefix + path);
    assert RoutePattern(verb, prefix, path) == verb + [' '] + (prefix + path);
  }

  /** The ServeMux: pattern -> handler. */
  class Mux {
    var routes: map<string, Chain>

    constructor ()
      ensures routes == map[]
    {
      routes := map[];
    }

    /** Handle: registering a pattern a second time panics and leaves the table unchanged. */
    method Handle(pattern: string, h: Chain) returns (panicked: bool)
      modifies this
      ensures panicked == (pattern in old(routes))
      ensures routes == if panicked then old(routes) else old(routes)[pattern := h]
    {
      panicked := pattern in routes;
      if !panicked {
        routes := routes[pattern := h];
      }
    }
  }

  // ---------------------------------------------------------------------
  // The per-request pipeline

  /**
   * The parts of an *http.Request the endpoint reads: the ServeMux path
   * values, the query, the header (each as a lookup returning "" when
   * absent) and the body (None when nil).
   */
  datatype Request = Request(
    pathValue: string -> string, query: string -> string, header: string -> string,
    body: Option<seq<bv8>>)

  /** A JSON document written as the body. */
  datatype JsonDoc = ErrorDoc(message: string) | ValueDoc(value: AnyValue)

  /** A body: none, the plain-text "Bad Request: ..." of http.Error, or a JSON document. */
  datatype Body = Empty | BadRequest(cause: BindError) | JsonBody(doc: JsonDoc)

  datatype Response = Response(status: int, body: Body)

  /** The binder sources of one request. */
  function RequestSources(req: Request): map<string, BindFunc> {
    map["path" := req.pathValue, "query" := req.query, "header" := req.header]
  }

  /** Whether the JSON body is decoded: a non-nil, non-empty body under an application/json content type. */
  predicate DecodesBody(req: Request) {
    req.body.Some? && HasPrefix(req.header("Content-Type"), "application/json") && |req.body.value| > 0
  }

  /**
   * The response written for a handler's reply: a handler error gives its
   * StatusCode() or 500 and its Payload() or {"error": message}; otherwise a
   * non-nil result is encoded with the implicit 200, and a nil one gives 204
   * with no body.
   */
  function MapResult(reply: Reply): (r: Response)
    ensures r.body.Empty? <==> reply.err.None? && reply.result.Nil?
    ensures reply.err.Some? ==> r.status == reply.err.value.statusCode.GetOr(500)
    ensures reply.err.None? ==> r.status == (if reply.result.Nil? then 204 else 200)
    ensures r.body == JsonBody(ErrorDoc(reply.err.GetOr(HandlerError("", None, None)).message)) <==>
      reply.err.Some? && reply.err.value.payload.None?
    ensures reply.err.None? && reply.result.Of? ==> r.body == JsonBody(ValueDoc(reply.result))
    ensures reply.err.Some? && reply.err.value.payload.Some? ==> r.body == JsonBody(ValueDoc(reply.err.value.payload.value))
  {
    match reply.err
    case Some(e) =>
      Response(e.statusCode.GetOr(500), JsonBody(if e.payload.Some? then ValueDoc(e.payload.value) else ErrorDoc(e.message)))
    case None =>
      if reply.result.Nil? then Response(204, Empty) else Response(200, JsonBody(ValueDoc(reply.result)))
  }

  /** A handler error that exposes neither a status code nor a payload is a 500 with its message. */
  lemma PlainErrorIs500(reply: Reply)
    requires reply.err.Some? && reply.err.value.statusCode.None? && reply.err.value.payload.None?
    ensures MapResult(reply) == Response(500, JsonBody(ErrorDoc(reply.err.value.message)))
  {
  }

  /** The outcome of Bind on a request's fields, sources visited in `order`, values stored in `applyOrder`. */
  function BoundFields(fields: seq<Field>, req: Request, order: seq<string>, applyOrder: seq<nat>): Outcome
    requires IsOrderOf(order, RequestSources(req).Keys)
    requires IsIndexOrder(applyOrder, |fields|)
  {
    ApplyValues(fields, Values(RequestSources(req), order, fields), applyOrder)
  }

  /** What the endpoint of a prototype answers to a request. */
  function Pipeline(typeName: string, prototype: seq<Field>, providers: map<string, Value>, req: Request,
                    order: seq<string>, applyOrder: seq<nat>, unmarshal: Unmarshal, handle: HandleFn): Response
    requires IsOrderOf(order, RequestSources(req).Keys)
    requires IsIndexOrder(applyOrder, |prototype|)
  {
    var injected := Injected(providers, prototype);
    var bound := BoundFields(injected, req, order, applyOrder);
    if bound.err.Some? then Response(400, BadRequest(bound.err.value))
    else
      var fields := if DecodesBody(req) then JsonBound(bound.fields, req.body.value, unmarshal).fields else bound.fields;
      MapResult(handle(typeName, fields))
  }

  /** A bind failure answers 400 whatever the handler would have done: the handler is not run. */
  lemma BindFailureIs400(typeName: string, prototype: seq<Field>, providers: map<string, Value>, req: Request,
                         order: seq<string>, applyOrder: seq<nat>, unmarshal: Unmarshal, h1: HandleFn, h2: HandleFn)
    requires IsOrderOf(order, RequestSources(req).Keys)
    requires IsIndexOrder(applyOrder, |prototype|)
    requires BoundFields(Injected(providers, prototype), req, order, applyOrder).err.Some?
    ensures Pipeline(typeName, prototype, providers, req, order, applyOrder, unmarshal, h1) ==
            Response(400, BadRequest(BoundFields(Injected(providers, prototype), req, order, applyOrder).err.value))
    ensures Pipeline(typeName, prototype, providers, req, order, applyOrder, unmarshal, h1) ==
            Pipeline(typeName, prototype, providers, req, order, applyOrder, unmarshal, h2)
  {
  }

  /** Without an application/json content type and a non-empty body, no JSON decoding takes place. */
  lemma BodyIgnoredUnlessJson(typeName: string, prototype: seq<Field>, providers: map<string, Value>, req: Request,
                              order: seq<string>, applyOrder: seq<nat>, u1: Unmarshal, u2: Unmarshal, handle: HandleFn)
    requires IsOrderOf(order, RequestSources(req).Keys)
    requires IsIndexOrder(applyOrder, |prototype|)
    requires !DecodesBody(req)
    ensures Pipeline(typeName, prototype, providers, req, order, applyOrder, u1, handle) ==
            Pipeline(typeName, prototype, providers, req, order, applyOrder, u2, handle)
  {
  }

  // ---------------------------------------------------------------------
  // The transport

  /** The *http.Server recorded while Listen runs. */
  class Server {
    const addr: string
    var shutDown: bool

    constructor (addr: string)
      ensures this.addr == addr && !shutDown
    {
      this.addr := addr;
      shutDown := false;
    }
  }

  /** How ListenAndServe returned: http.ErrServerClosed, or another error. */
  datatype ServeOutcome = ServerClosed | ServeFailed(message: string)

  datatype ListenError = AlreadyListening | ListenFailed(message: string)

  class Transport {
    const mux: Mux
    const container: Container
    const prefix: string
    var logger: Logger
    var middleware: seq<Middleware>
    var handlers: seq<Target>
    var srv: Server?

    /** New: its own mux and container, the Nop logger, no prefix, no middleware. */
    constructor ()
      ensures fresh(mux) && fresh(container)
      ensures mux.routes == map[] && container.providers == map[]
      ensures prefix == "" && logger == Nop && middleware == [] && handlers == [] && srv == null
    {
      mux := new Mux();
      container := new Container();
      prefix := "";
      logger := Nop;
      middleware := [];
      handlers := [];
      srv := null;
    }

    /** A transport sharing a mux and a container. */
    constructor Derived(mux: Mux, container: Container, logger: Logger, middleware: seq<Middleware>, prefix: string)
      ensures this.mux == mux && this.container == container && this.logger == logger
      ensures this.middleware == middleware && this.prefix == prefix
      ensures handlers == [] && srv == null
    {
      this.mux := mux;
      this.container := container;
      this.logger := logger;
      this.middleware := middleware;
      this.prefix := prefix;
      handlers := [];
      srv := null;
    }

    /** Provide forwards to the container. */
    method Provide(name: string, instance: Value)
      modifies container
      ensures container.providers == old(container.providers)[name := instance]
    {
      container.Provide(name, instance);
    }

    /** Use appends a middleware; routes registered earlier keep the chain they were built with. */
    method Use(mw: Middleware)
      modifies this
      ensures middleware == old(middleware) + [mw]
      ensures logger == old(logger) && handlers == old(handlers) && srv == old(srv)
    {
      middleware := middleware + [mw];
    }

    /**
     * Group: a new transport on the same mux and container whose prefix
     * extends this one's and whose middleware list starts as a copy of this
     * one's (being a distinct object, later Use calls on either do not reach
     * the other).
     */
    method Group(p: string) returns (g: Transport)
      ensures fresh(g)
      ensures g.mux == mux && g.container == container && g.logger == logger
      ensures g.prefix == prefix + p && g.middleware == middleware
      ensures g.handlers == [] && g.srv == null
    {
      g := new Transport.Derived(mux, container, logger, middleware, prefix + p);
    }

    /** Middleware wrapping, from the last to the first. */
    static method WrapMiddleware(mws: seq<Middleware>, base: Chain) returns (h: Chain)
      ensures h == Wrap(mws, base)
    {
      h := base;
      var i := |mws|;
      while i > 0
        invariant 0 <= i <= |mws|
        invariant h == Wrap(mws[i..], base)
      {
        i := i - 1;
        assert mws[i..][1..] == mws[i + 1..];
        h := Wrapped(mws[i], h);
      }
    }

    /**
     * Register: the prototype is appended to `handlers` first; a prototype
     * that is not a pointer to a struct, or whose first marker field lacks a
     * method or a path, then panics, as does a pattern the mux already
     * holds. Otherwise the mux maps the pattern to the endpoint wrapped by
     * the middleware registered so far. `panicked` reports the panic.
     */
    method Register(prototype: Target) returns (panicked: bool)
      modifies this, mux
      ensures handlers == old(handlers) + [prototype]
      ensures middleware == old(middleware) && logger == old(logger) && srv == old(srv)
      ensures prototype.NotStructPtr? ==> panicked && mux.routes == old(mux.routes)
      ensures prototype.StructPtr? ==>
        var pattern := PatternFor(prefix, prototype.inst.fields);
        panicked == (pattern.None? || pattern.value in old(mux.routes)) &&
        mux.routes == if panicked then old(mux.routes)
                      else old(mux.routes)[pattern.value := Wrap(middleware, Endpoint(prototype.inst))]
    {
      handlers := handlers + [prototype];
      if prototype.NotStructPtr? {
        return true;
      }
      var fields := prototype.inst.fields;
      var i := 0;
      while i < |fields| && fields[i].typ != PatternType
        invariant 0 <= i <= |fields|
        invariant forall j :: 0 <= j < i ==> fields[j].typ != PatternType
      {
        i := i + 1;
      }
      var verb, path := "", "";
      if i < |fields| {
        assert PatternIndex(fields) == Some(i);
        verb := TagGet(fields[i], "method");
        path := TagGet(fields[i], "path");
      }
      if verb == "" || path == "" {
        return true;
      }
      var pattern := RoutePattern(verb, prefix, path);
      var h := WrapMiddleware(middleware, Endpoint(prototype.inst));
      panicked := mux.Handle(pattern, h);
    }

    /** Handlers: every prototype passed to Register, in order, including those that panicked. */
    method Handlers() returns (hs: seq<Target>)
      ensures hs == handlers
    {
      hs := handlers;
    }

    /** A binder over the request's path, query and header, and Bind on a fresh instance. */
    static method BindRequest(inst: Instance, req: Request, order: seq<string>, applyOrder: seq<nat>)
      returns (binder: Binder, err: Option<BindError>)
      requires IsOrderOf(order, RequestSources(req).Keys)
      requires IsIndexOrder(applyOrder, |inst.fields|)
      modifies inst
      ensures fresh(binder)
      ensures Outcome(inst.fields, err) == BoundFields(old(inst.fields), req, order, applyOrder)
    {
      binder := new Binder();
      binder.AddSource("path", req.pathValue);
      binder.AddSource("query", req.query);
      binder.AddSource("header", req.header);
      assert binder.sources == RequestSources(req);
      err := binder.Bind(StructPtr(inst), order, applyOrder);
    }

    /**
     * The endpoint of a prototype serving one request: a fresh copy is
     * injected from the container and bound from the path, query and header;
     * a bind error answers 400; otherwise a JSON body is decoded into the
     * body:"json" field when present, Handle runs and its reply is mapped.
     * `order` and `applyOrder` are the map orders Bind meets.
     */
    method Serve(prototype: Instance, req: Request, order: seq<string>, applyOrder: seq<nat>,
                 unmarshal: Unmarshal, handle: HandleFn) returns (resp: Response)
      requires IsOrderOf(order, RequestSources(req).Keys)
      requires IsIndexOrder(applyOrder, |prototype.fields|)
      ensures resp == Pipeline(prototype.typeName, prototype.fields, container.providers, req,
                               order, applyOrder, unmarshal, handle)
    {
      var instance := prototype.Copy();
      container.Inject(StructPtr(instance));
      var binder, err := BindRequest(instance, req, order, applyOrder);
      if err.Some? {
        return Response(400, BadRequest(err.value));
      }
      if req.body.Some? && HasPrefix(req.header("Content-Type"), "application/json") {
        var body := req.body.value;
        if |body| > 0 {
          var _ := binder.BindJSON(StructPtr(instance), body, unmarshal);
        }
      }
      var reply := handle(instance.typeName, instance.fields);
      resp := MapResult(reply);
    }

    /**
     * The first half of Listen, up to ListenAndServe: with a server already
     * recorded it fails; otherwise a fresh server for `addr` is recorded.
     */
    method StartListening(addr: string) returns (s: Server?, err: Option<ListenError>)
      modifies this
      ensures old(srv) != null ==> s == null && err == Some(AlreadyListening) && srv == old(srv)
      ensures old(srv) == null ==> s != null && fresh(s) && s.addr == addr && !s.shutDown && err == None && srv == s
      ensures logger == old(logger) && middleware == old(middleware) && handlers == old(handlers)
    {
      if srv != null {
        return null, Some(AlreadyListening);
      }
      s := new Server(addr);
      srv := s;
      err := None;
    }

    /**
     * The second half of Listen, after ListenAndServe returned: the slot is
     * cleared only if it still holds this call's server; ErrServerClosed is
     * not an error. ListenAndServe returns ErrServerClosed once Shutdown was
     * called on its server.
     */
    method FinishListening(s: Server, outcome: ServeOutcome) returns (err: Option<ListenError>)
      requires s.shutDown ==> outcome == ServerClosed
      modifies this
      ensures srv == if old(srv) == s then null else old(srv)
      ensures err == if outcome.ServeFailed? then Some(ListenFailed(outcome.message)) else None
      ensures logger == old(logger) && middleware == old(middleware) && handlers == old(handlers)
    {
      if srv == s {
        srv := null;
      }
      err := if outcome.ServeFailed? then Some(ListenFailed(outcome.message)) else None;
    }

    /** Listen with no Shutdown in between: it leaves the server slot as it found it. */
    method Listen(addr: string, outcome: ServeOutcome) returns (err: Option<ListenError>)
      modifies this
      ensures srv == old(srv)
      ensures old(srv) != null ==> err == Some(AlreadyListening)
      ensures old(srv) == null ==> err == if outcome.ServeFailed? then Some(ListenFailed(outcome.message)) else None
    {
      var s, e := StartListening(addr);
      if e.Some? {
        return e;
      }
      err := FinishListening(s, outcome);
    }

    /**
     * Shutdown: with no server recorded it returns nil; otherwise the
     * recorded server is shut down and the error srv.Shutdown reports is
     * returned, unless it is ErrServerClosed. The slot itself is left to
     * Listen to clear.
     */
    method Shutdown(shutdownErr: Option<ServeOutcome>) returns (err: Option<ListenError>)
      modifies srv
      ensures old(srv) == null ==> err == None
      ensures old(srv) != null ==> (srv.shutDown && err ==
        (if shutdownErr.Some? && shutdownErr.value.ServeFailed? then Some(ListenFailed(shutdownErr.value.message)) else None))
    {
      var s := srv;
      if s == null {
        return None;
      }
      s.shutDown := true;
      if shutdownErr.Some? && shutdownErr.value.ServeFailed? {
        return Some(ListenFailed(shutdownErr.value.message));
      }
      err := None;
    }
  }
}
